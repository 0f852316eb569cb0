/**
 Capturing a container's output under a byte limit, and what the limit does to
 the marker line, which is written last.
 */
module Capture {
  import opened Prelude
  import opened Text
  import opened Base64
  import opened Markers
  import Utf8

  /** The first `limit` bytes of `s`; a limit below one keeps nothing. */
  function Taken(s: string, limit: int): string {
    if limit <= 0 then "" else if |s| <= limit then s else s[..limit]
  }

  /**
   The limit counts bytes, not characters: valid text stays valid under it if and only
   if nothing is cut off or what is cut off begins with a whole character.
   */
  lemma TakenIsValidIff(s: string, limit: int)
    requires Utf8.Valid(s)
    ensures Utf8.Valid(Taken(s, limit)) <==> limit <= 0 || limit >= |s| || !Utf8.IsTail(s[limit])
  {
    if 0 < limit < |s| {
      Utf8.CutIsValidIff(s, limit);
    }
  }

  /** Writes past the limit are dropped, not refused, so that the copy goes on. */
  class LimitedWriter {
    var buffer: string   // what the underlying bytes.Buffer holds
    var remaining: int
    ghost const limit: int
    ghost var sent: string  // everything that was ever written

    ghost predicate Valid()
      reads this
    {
      && buffer == Taken(sent, limit)
      && remaining == limit - |buffer|
    }

    constructor (limit: int)
      ensures Valid() && sent == "" && this.limit == limit
    {
      buffer, remaining := "", limit;
      this.limit, sent := limit, "";
    }

    /** The count reported is that of the whole chunk, whatever was kept of it. */
    method Write(p: string) returns (n: int)
      requires Valid()
      modifies this
      ensures Valid() && sent == old(sent) + p
      ensures n == |p|
    {
      sent := sent + p;
      if remaining <= 0 {
        return |p|;
      }
      var chunk := p;
      if |chunk| > remaining {
        chunk := chunk[..remaining];
      }
      buffer := buffer + chunk;
      remaining := remaining - |chunk|;
      return |p|;
    }
  }

  /** One frame of the attach stream. */
  datatype Frame = Stdout(data: string) | Stderr(data: string)

  function OutputOf(frames: seq<Frame>): string {
    if frames == [] then ""
    else OutputOf(frames[..|frames| - 1]) + match frames[|frames| - 1] case Stdout(d) => d case Stderr(_) => ""
  }

  function ErrorsOf(frames: seq<Frame>): string {
    if frames == [] then ""
    else ErrorsOf(frames[..|frames| - 1]) + match frames[|frames| - 1] case Stdout(_) => "" case Stderr(d) => d
  }

  lemma {:induction false} OutputConcat(a: seq<Frame>, b: seq<Frame>)
    ensures OutputOf(a + b) == OutputOf(a) + OutputOf(b)
  {
    var c := a + b;
    if b == [] {
      assert c == a;
    } else {
      var front, last := b[..|b| - 1], b[|b| - 1];
      var e := match last case Stdout(d) => d case Stderr(_) => "";
      OutputConcat(a, front);
      assert c[..|c| - 1] == a + front && c[|c| - 1] == last;
      assert OutputOf(c) == OutputOf(a + front) + e && OutputOf(b) == OutputOf(front) + e;
    }
  }

  lemma {:induction false} ErrorsConcat(a: seq<Frame>, b: seq<Frame>)
    ensures ErrorsOf(a + b) == ErrorsOf(a) + ErrorsOf(b)
  {
    var c := a + b;
    if b == [] {
      assert c == a;
    } else {
      var front, last := b[..|b| - 1], b[|b| - 1];
      var e := match last case Stdout(_) => "" case Stderr(d) => d;
      ErrorsConcat(a, front);
      assert c[..|c| - 1] == a + front && c[|c| - 1] == last;
      assert ErrorsOf(c) == ErrorsOf(a + front) + e && ErrorsOf(b) == ErrorsOf(front) + e;
    }
  }

  /** Either stream of three batches of frames is that of one after the other. */
  lemma StreamsConcat(a: seq<Frame>, m: seq<Frame>, b: seq<Frame>)
    ensures OutputOf(a + m + b) == OutputOf(a) + OutputOf(m) + OutputOf(b)
    ensures ErrorsOf(a + m + b) == ErrorsOf(a) + ErrorsOf(m) + ErrorsOf(b)
  {
    hide OutputOf, ErrorsOf;
    OutputConcat(a, m);
    OutputConcat(a + m, b);
    ErrorsConcat(a, m);
    ErrorsConcat(a + m, b);
  }

  lemma OneFrame(d: string)
    ensures OutputOf([Stdout(d)]) == d && ErrorsOf([Stdout(d)]) == ""
    ensures OutputOf([Stderr(d)]) == "" && ErrorsOf([Stderr(d)]) == d
  {
    assert [Stdout(d)][..0] == [] && [Stderr(d)][..0] == [];
  }

  /** Frames of one stream do not show in the other, wherever they come in between. */
  lemma StreamsDoNotMix(a: seq<Frame>, d: string, b: seq<Frame>)
    ensures OutputOf(a + [Stderr(d)] + b) == OutputOf(a + b)
    ensures ErrorsOf(a + [Stdout(d)] + b) == ErrorsOf(a + b)
  {
    OneFrame(d);
    hide OutputOf, ErrorsOf;
    StreamsConcat(a, [Stderr(d)], b);
    StreamsConcat(a, [Stdout(d)], b);
    OutputConcat(a, b);
    ErrorsConcat(a, b);
  }

  /** However a text is cut into frames of one stream, it is put together again. */
  lemma CuttingDoesNotMatter(a: seq<Frame>, d: string, k: nat, b: seq<Frame>)
    requires k <= |d|
    ensures OutputOf(a + [Stdout(d[..k]), Stdout(d[k..])] + b) == OutputOf(a + [Stdout(d)] + b)
    ensures ErrorsOf(a + [Stderr(d[..k]), Stderr(d[k..])] + b) == ErrorsOf(a + [Stderr(d)] + b)
  {
    OneFrame(d);
    OneFrame(d[..k]);
    OneFrame(d[k..]);
    hide OutputOf, ErrorsOf;
    var out, err := [Stdout(d[..k])] + [Stdout(d[k..])], [Stderr(d[..k])] + [Stderr(d[k..])];
    assert out == [Stdout(d[..k]), Stdout(d[k..])] && err == [Stderr(d[..k]), Stderr(d[k..])];
    assert d == d[..k] + d[k..];
    OutputConcat([Stdout(d[..k])], [Stdout(d[k..])]);
    ErrorsConcat([Stderr(d[..k])], [Stderr(d[k..])]);
    StreamsConcat(a, out, b);
    StreamsConcat(a, err, b);
    StreamsConcat(a, [Stdout(d)], b);
    StreamsConcat(a, [Stderr(d)], b);
  }

  /**
   The copying goroutine: however the container's output was cut into frames and
   interleaved, each buffer ends up with the first `limit` bytes of its stream.
   */
  method CopyStreams(frames: seq<Frame>, limit: int) returns (stdout: string, stderr: string)
    ensures stdout == Taken(OutputOf(frames), limit)
    ensures stderr == Taken(ErrorsOf(frames), limit)
  {
    var out := new LimitedWriter(limit);
    var err := new LimitedWriter(limit);
    var i := 0;
    while i < |frames|
      invariant 0 <= i <= |frames|
      invariant out != err && out.Valid() && err.Valid() && out.limit == err.limit == limit
      invariant out.sent == OutputOf(frames[..i])
      invariant err.sent == ErrorsOf(frames[..i])
    {
      assert frames[..i + 1][..i] == frames[..i];
      match frames[i] {
        case Stdout(d) => var _ := out.Write(d);
        case Stderr(d) => var _ := err.Write(d);
      }
      i := i + 1;
    }
    assert frames[..i] == frames;
    return out.buffer, err.buffer;
  }

  // ----------------------------------------------------- the limit and the marker

  ghost predicate Contains(s: string, p: string) {
    exists i :: OccursAt(s, p, i)
  }

  lemma ExtractWithoutPattern(s: string, nonce: string)
    requires !Contains(s, Pattern(nonce))
    ensures Extract(s, nonce) == (s, NO_MARKER, false)
  {
    LastIndexNone(s, Pattern(nonce));
  }

  lemma PrefixLacks(s: string, limit: int, p: string)
    requires !Contains(s, p)
    ensures !Contains(Taken(s, limit), p)
  {
    var t := Taken(s, limit);
    forall i
      ensures OccursAt(t, p, i) ==> OccursAt(s, p, i)
    {
      if 0 <= i && i + |p| <= |t| {
        assert t == s[..|t|];
        assert s[..|t|][i..i + |p|] == s[i..i + |p|];
      }
    }
  }

  /** An occurrence of the pattern never spans a line break. */
  lemma PatternStaysOnOneLine(a: string, b: string, nonce: string)
    requires CleanNonce(nonce)
    requires !Contains(a, Pattern(nonce)) && |b| < |Pattern(nonce)|
    ensures !Contains(a + "\n" + b, Pattern(nonce))
  {
    var p := Pattern(nonce);
    var s := a + "\n" + b;
    assert '\n' !in p && s[|a|] == '\n';
    forall i
      ensures OccursAt(s, p, i) ==> OccursAt(a, p, i)
    {
      assert 0 <= i && i + |p| <= |a| ==> a[i..i + |p|] == s[i..i + |p|];
      assert 0 <= i <= |a| < i + |p| <= |s| ==> s[i..i + |p|][|a| - i] == '\n';
    }
  }

  /**
   The stream was cut before the whole pattern got through: no marker is found and
   the captured bytes are handed on as they are.
   */
  lemma CutBeforeThePattern(stderr: string, nonce: string, line: string, limit: int)
    requires CleanNonce(nonce) && limit < |stderr| + 1 + |Pattern(nonce)|
    requires !Contains(Taken(stderr, limit), Pattern(nonce))
    ensures var captured := Taken(stderr + ("\n" + line), limit);
            Extract(captured, nonce) == (captured, NO_MARKER, false)
  {
    var full := stderr + ("\n" + line);
    var captured := Taken(full, limit);
    if limit <= |stderr| {
      assert captured == Taken(stderr, limit);
    } else {
      assert Taken(stderr, limit) == stderr;
      var k := Min(limit, |full|) - |stderr| - 1;
      assert captured == stderr + "\n" + line[..k];
      PatternStaysOnOneLine(stderr, line[..k], nonce);
    }
    ExtractWithoutPattern(captured, nonce);
  }

  // ------------------------------------------------ the fields of a cut line

  /** The number read from the first `k` bytes of the decimal form of `n`. */
  function CutNumber(n: int, k: int): int {
    if k <= 0 then 0 else ParseInt(Decimal(n)[..Min(k, |Decimal(n)|)])
  }

  /** A number survives a cut exactly if all of it gets through, or if it is the zero the parser starts from. */
  lemma CutNumberIs(n: int, k: int)
    requires IsInt64(n)
    ensures CutNumber(n, k) == n <==> n == 0 || k >= |Decimal(n)|
    ensures n >= 0 ==> 0 <= CutNumber(n, k) <= if k >= |Decimal(n)| then n else n / 10
    ensures n <= 0 ==> n <= CutNumber(n, k) <= 0
    ensures n >= 10 && k == |Decimal(n)| - 1 ==> CutNumber(n, k) == n / 10
  {
    var d := Decimal(n);
    if k >= |d| {
      assert d[..|d|] == d;
      ParseIntOfDecimal(n);
      DecimalIsWord(n);
    } else if k > 0 && n >= 0 {
      var u := DigitsPrefix(n, k);
      ParseIntOfDecimal(u);
    } else if k > 1 {
      var u := DigitsPrefix(-n, k - 1);
      var v: int := u;
      v := -v;
      assert d[..k] == "-" + Digits(-n)[..k - 1] == Decimal(v);
      ParseIntOfDecimal(v);
    } else if k == 1 {
      assert d[..k] == "-";
    }
    DigitsAreDigits(if n < 0 then -n else n);
  }

  /** The compile output read from the first `k` bytes of its encoding. */
  function CutText(b64: string, k: int): string {
    if k <= 0 then ""
    else var text := Decode(b64[..Min(k, |b64|)]); if text.Some? then text.value else ""
  }

  /** The values of a marker line, as printed. */
  datatype Line = Line(phase: string, rc: int, cpuUsec: int, memBytes: int, secs: int, b64: string)
  {
    function Body(): string {
      Join(Words(phase, rc, cpuUsec, memBytes, secs, b64))
    }

    function Emitted(nonce: string): string {
      Emit(nonce, phase, rc, cpuUsec, memBytes, secs, b64)
    }

    // where each value starts in the body

    function RcAt(): nat {
      |"phase="| + |phase| + |" rc="|
    }

    function CpuAt(): nat {
      RcAt() + |Decimal(rc)| + |" cpu_usec="|
    }

    function MemAt(): nat {
      CpuAt() + |Decimal(cpuUsec)| + |" mem_bytes="|
    }

    function SecsAt(): nat {
      MemAt() + |Decimal(memBytes)| + |" secs="|
    }

    function TextAt(): nat {
      SecsAt() + |Decimal(secs)| + |" compile_b64="|
    }

    predicate Printable() {
      && phase != "" && NoSpace(phase) && NoSpace(b64)
      && IsInt64(rc) && IsInt64(cpuUsec) && IsInt64(memBytes) && IsInt64(secs)
    }

    /** What the parser makes of the first `n` bytes of the body. */
    function Cut(n: int): Marker {
      Marker(phase[..Max(0, Min(n - |"phase="|, |phase|))], CutNumber(rc, n - RcAt()), CutNumber(cpuUsec, n - CpuAt()),
             CutNumber(memBytes, n - MemAt()), CutNumber(secs, n - SecsAt()), CutText(b64, n - TextAt()))
    }
  }

  lemma EmptyField(m: Marker)
    ensures Fields("") == [] && SetField(m, "") == m && SetFields(m, []) == m
  {
  }

  /** Reading a cut line one word at a time. */
  lemma CutStep(m: Marker, words: seq<string>, n: nat)
    requires words != [] && (forall i :: 0 <= i < |words| ==> IsWord(words[i])) && n <= |Join(words)|
    ensures var w, rest, n' := words[0], Join(words[1..]), Max(0, n - |words[0]| - 1);
            && n' <= |rest|
            && SetFields(m, Fields(Join(words)[..n])) == SetFields(SetField(m, w[..Min(n, |w|)]), Fields(rest[..n']))
  {
    hide SetField, IsSpace;
    var w, rest := words[0], Join(words[1..]);
    EmptyField(m);
    assert rest[..0] == "";
    if n == 0 {
      assert Join(words)[..n] == "" && w[..0] == "";
    } else if n <= |w| {
      assert Join(words)[..n] == w[..n];
      FieldsOfWord(w[..n]);
      assert [w[..n]][1..] == [];
    } else {
      assert Join(words) == w + " " + rest;
      var rest' := rest[..n - |w| - 1];
      assert Join(words)[..n] == w + " " + rest';
      FieldsCons(w, rest');
      assert w[..|w|] == w;
      assert ([w] + Fields(rest'))[1..] == Fields(rest');
    }
  }

  lemma CutTwoSteps(m: Marker, words: seq<string>, n: nat)
    requires |words| >= 2 && (forall i :: 0 <= i < |words| ==> IsWord(words[i])) && n <= |Join(words)|
    ensures var v, w := words[0], words[1];
            var n' := Max(0, n - |v| - 1);
            var n'' := Max(0, n' - |w| - 1);
            && n'' <= |Join(words[2..])|
            && SetFields(m, Fields(Join(words)[..n])) ==
               SetFields(SetField(SetField(m, v[..Min(n, |v|)]), w[..Min(n', |w|)]), Fields(Join(words[2..])[..n'']))
  {
    hide SetFields, SetField, Fields, Join;
    CutStep(m, words, n);
    assert words[1..][1..] == words[2..];
    CutStep(SetField(m, words[0][..Min(n, |words[0]|)]), words[1..], Max(0, n - |words[0]| - 1));
  }

  /** A `key=value` field cut after `n` bytes has no effect until its `=` is through, and then the value's first bytes. */
  lemma CutField(key: string, v: string, n: nat)
    requires '=' !in key
    ensures var field := Field(key, v);
            var cut := field[..Min(n, |field|)];
            Text.Cut(cut, '=') ==
            if n <= |key| then (cut, "", false) else (key, v[..Min(n - |key| - 1, |v|)], true)
  {
    var field := Field(key, v);
    var cut := field[..Min(n, |field|)];
    if n <= |key| {
      assert cut == key[..n];
      IndexByteNone(cut, '=');
    } else {
      var v' := v[..Min(n - |key| - 1, |v|)];
      assert cut == key + ['='] + v';
      CutAtFirst(key, '=', v');
    }
  }

  lemma RcCut(m: Marker, v: int, n: nat)
    requires m.rc == 0
    ensures var f := Field("rc", Decimal(v)); SetField(m, f[..Min(n, |f|)]) == m.(rc := CutNumber(v, n - 3))
  {
    CutField("rc", Decimal(v), n);
  }

  lemma CpuCut(m: Marker, v: int, n: nat)
    requires m.cpuUsec == 0
    ensures var f := Field("cpu_usec", Decimal(v)); SetField(m, f[..Min(n, |f|)]) == m.(cpuUsec := CutNumber(v, n - 9))
  {
    CutField("cpu_usec", Decimal(v), n);
  }

  lemma MemCut(m: Marker, v: int, n: nat)
    requires m.memBytes == 0
    ensures var f := Field("mem_bytes", Decimal(v)); SetField(m, f[..Min(n, |f|)]) == m.(memBytes := CutNumber(v, n - 10))
  {
    CutField("mem_bytes", Decimal(v), n);
  }

  lemma SecsCut(m: Marker, v: int, n: nat)
    requires m.secs == 0
    ensures var f := Field("secs", Decimal(v)); SetField(m, f[..Min(n, |f|)]) == m.(secs := CutNumber(v, n - 5))
  {
    CutField("secs", Decimal(v), n);
  }

  lemma TextCut(m: Marker, b64: string, n: nat)
    requires m.compileOutput == ""
    ensures var f := Field("compile_b64", b64); SetField(m, f[..Min(n, |f|)]) == m.(compileOutput := CutText(b64, n - 12))
  {
    CutField("compile_b64", b64, n);
    assert Decode("") == Some("") by {
      RoundTrip("");
    }
  }

  lemma PhaseCut(m: Marker, phase: string, n: nat)
    requires m.phase == ""
    ensures var f := Field("phase", phase);
            SetField(m, f[..Min(n, |f|)]) == m.(phase := phase[..Max(0, Min(n - 6, |phase|))])
  {
    CutField("phase", phase, n);
  }

  lemma NoFieldsLeft(m: Marker)
    ensures |Join([])| == 0 && SetFields(m, Fields(Join([])[..0])) == m
  {
    assert Fields("") == [];
  }

  /** Counting from the start of the line or from the start of each word comes to the same. */
  lemma SamePositions(x: Line, n: nat)
    ensures var ws := Words(x.phase, x.rc, x.cpuUsec, x.memBytes, x.secs, x.b64);
            var n1 := Max(0, n - |ws[0]| - 1);
            var n2 := Max(0, n1 - |ws[1]| - 1);
            var n3 := Max(0, n2 - |ws[2]| - 1);
            var n4 := Max(0, n3 - |ws[3]| - 1);
            var n5 := Max(0, n4 - |ws[4]| - 1);
            x.Cut(n) == Marker(x.phase[..Max(0, Min(n - 6, |x.phase|))], CutNumber(x.rc, n1 - 3), CutNumber(x.cpuUsec, n2 - 9),
                               CutNumber(x.memBytes, n3 - 10), CutNumber(x.secs, n4 - 5), CutText(x.b64, n5 - 12))
  {
    hide Decimal, Decode, ParseInt;
  }

  lemma LastFieldsOfCut(m: Marker, secs: int, b64: string, words: seq<string>, n: nat)
    requires m.secs == 0 && m.compileOutput == ""
    requires words == [Field("secs", Decimal(secs)), Field("compile_b64", b64)] && n <= |Join(words)|
    requires forall i :: 0 <= i < |words| ==> IsWord(words[i])
    ensures var n' := Max(0, n - |words[0]| - 1);
            SetFields(m, Fields(Join(words)[..n])) ==
            m.(secs := CutNumber(secs, n - 5), compileOutput := CutText(b64, n' - 12))
  {
    hide Field, SetFields, SetField, Fields, CutNumber, CutText, Decimal;
    var n' := Max(0, n - |words[0]| - 1);
    var m' := m.(secs := CutNumber(secs, n - 5));
    SecsCut(m, secs, n);
    CutStep(m, words, n);
    TextCut(m', b64, n');
    CutStep(m', words[1..], n');
    NoFieldsLeft(m'.(compileOutput := CutText(b64, n' - 12)));
    assert words[1..][1..] == [];
  }

  /** The fields of a line cut `n` bytes into its last four words, the phase and exit status having been read. */
  lemma MiddleFieldsOfCut(m: Marker, x: Line, words: seq<string>, n: nat)
    requires m == NO_MARKER.(phase := m.phase, rc := m.rc) && n <= |Join(words)|
    requires words == Words(x.phase, x.rc, x.cpuUsec, x.memBytes, x.secs, x.b64)[2..]
    requires forall i :: 0 <= i < |words| ==> IsWord(words[i])
    ensures var n3 := Max(0, n - |words[0]| - 1);
            var n4 := Max(0, n3 - |words[1]| - 1);
            var n5 := Max(0, n4 - |words[2]| - 1);
            SetFields(m, Fields(Join(words)[..n])) ==
            Marker(m.phase, m.rc, CutNumber(x.cpuUsec, n - 9), CutNumber(x.memBytes, n3 - 10),
                   CutNumber(x.secs, n4 - 5), CutText(x.b64, n5 - 12))
  {
    hide Field, SetFields, SetField, Fields, CutNumber, CutText, Decimal, Join, IsWord;
    var n3 := Max(0, n - |words[0]| - 1);
    var n4 := Max(0, n3 - |words[1]| - 1);
    var m3 := m.(cpuUsec := CutNumber(x.cpuUsec, n - 9));
    CpuCut(m, x.cpuUsec, n);
    MemCut(m3, x.memBytes, n3);
    CutTwoSteps(m, words, n);
    LastFieldsOfCut(m3.(memBytes := CutNumber(x.memBytes, n3 - 10)), x.secs, x.b64, words[2..], n4);
  }

  lemma FirstFieldsOfCut(x: Line, words: seq<string>, n: nat)
    requires |words| == 6 && words == Words(x.phase, x.rc, x.cpuUsec, x.memBytes, x.secs, x.b64) && n <= |Join(words)|
    requires forall i :: 0 <= i < |words| ==> IsWord(words[i])
    ensures var n1 := Max(0, n - |words[0]| - 1);
            var n2 := Max(0, n1 - |words[1]| - 1);
            var m := NO_MARKER.(phase := x.phase[..Max(0, Min(n - 6, |x.phase|))], rc := CutNumber(x.rc, n1 - 3));
            n2 <= |Join(words[2..])| && SetFields(NO_MARKER, Fields(Join(words)[..n])) == SetFields(m, Fields(Join(words[2..])[..n2]))
  {
    hide Field, SetFields, SetField, Fields, CutNumber, CutText, Decimal, Join, IsWord;
    PhaseCut(NO_MARKER, x.phase, n);
    RcCut(NO_MARKER.(phase := x.phase[..Max(0, Min(n - 6, |x.phase|))]), x.rc, Max(0, n - |words[0]| - 1));
    CutTwoSteps(NO_MARKER, words, n);
  }

  lemma AllFieldsOfCut(x: Line, words: seq<string>, n: nat)
    requires words == Words(x.phase, x.rc, x.cpuUsec, x.memBytes, x.secs, x.b64) && n <= |Join(words)|
    requires forall i :: 0 <= i < |words| ==> IsWord(words[i])
    ensures SetFields(NO_MARKER, Fields(Join(words)[..n])) == x.Cut(n)
  {
    hide Field, SetFields, Fields, CutNumber, CutText, Join, IsWord, Line.Cut, Decimal;
    var n1 := Max(0, n - |words[0]| - 1);
    var n2 := Max(0, n1 - |words[1]| - 1);
    var m := NO_MARKER.(phase := x.phase[..Max(0, Min(n - 6, |x.phase|))], rc := CutNumber(x.rc, n1 - 3));
    FirstFieldsOfCut(x, words, n);
    var last := words[2..];
    assert last[0] == words[2] && last[1] == words[3] && last[2] == words[4];
    MiddleFieldsOfCut(m, x, last, n2);
    SamePositions(x, n);
  }

  /** Every field of a line cut `n` bytes into its body, as the parser reads it. */
  lemma FieldsOfCut(x: Line, n: nat)
    requires x.Printable() && n <= |x.Body()|
    ensures SetFields(NO_MARKER, Fields(x.Body()[..n])) == x.Cut(n)
  {
    hide Field, SetFields, Fields, CutNumber, CutText, Join, IsWord, Line.Cut, Decimal;
    WordsAreWords(x.phase, x.rc, x.cpuUsec, x.memBytes, x.secs, x.b64);
    AllFieldsOfCut(x, Words(x.phase, x.rc, x.cpuUsec, x.memBytes, x.secs, x.b64), n);
  }

  lemma JoinLength(ws: seq<string>)
    requires |ws| == 6
    ensures |Join(ws)| == |ws[0]| + |ws[1]| + |ws[2]| + |ws[3]| + |ws[4]| + |ws[5]| + 5
  {
    assert |Join(ws[5..])| == |ws[5]|;
    assert ws[4..][1..] == ws[5..];
    assert |Join(ws[4..])| == |ws[4]| + 1 + |Join(ws[5..])|;
    assert ws[3..][1..] == ws[4..];
    assert |Join(ws[3..])| == |ws[3]| + 1 + |Join(ws[4..])|;
    assert ws[2..][1..] == ws[3..];
    assert |Join(ws[2..])| == |ws[2]| + 1 + |Join(ws[3..])|;
    assert ws[1..][1..] == ws[2..];
    assert |Join(ws[1..])| == |ws[1]| + 1 + |Join(ws[2..])|;
  }

  lemma WholeNumber(v: int, k: int, k': int)
    requires k >= |Decimal(v)| && k' >= |Decimal(v)|
    ensures CutNumber(v, k) == CutNumber(v, k')
  {
    DecimalIsWord(v);
  }

  lemma WholeText(b64: string, k: int, k': int)
    requires k >= |b64| && k' >= |b64|
    ensures CutText(b64, k) == CutText(b64, k')
  {
    RoundTrip("");
  }

  /** Nothing follows the last value. */
  lemma CutAtEnd(x: Line, n: int)
    requires n >= |x.Body()|
    ensures x.Cut(n) == x.Cut(|x.Body()|)
  {
    hide Decimal, CutNumber, CutText, Join;
    JoinLength(Words(x.phase, x.rc, x.cpuUsec, x.memBytes, x.secs, x.b64));
    var n' := |x.Body()|;
    WholeNumber(x.rc, n - x.RcAt(), n' - x.RcAt());
    WholeNumber(x.cpuUsec, n - x.CpuAt(), n' - x.CpuAt());
    WholeNumber(x.memBytes, n - x.MemAt(), n' - x.MemAt());
    WholeNumber(x.secs, n - x.SecsAt(), n' - x.SecsAt());
    WholeText(x.b64, n - x.TextAt(), n' - x.TextAt());
  }

  lemma QuietPrefix(s: string, n: nat)
    requires Quiet(s) && n <= |s|
    ensures Quiet(s[..n])
  {
  }

  /** The stream was cut after the pattern: the program's stderr is recovered, and of the fields what got through. */
  lemma CutAfterThePattern(stderr: string, nonce: string, x: Line, n: nat, end: string)
    requires CleanNonce(nonce) && x.Printable() && |"phase="| <= n <= |x.Body()| && (end == "" || end == "\n")
    ensures Extract(stderr + ("\n" + (nonce + " " + x.Body()[..n]) + end), nonce) ==
            (stderr, Clamped(x.Cut(n)), n > |"phase="|)
  {
    hide Extract, SetFields, Fields, Quiet, QuietWords, CutNumber, CutText;
    var words := Words(x.phase, x.rc, x.cpuUsec, x.memBytes, x.secs, x.b64);
    WordsAreWords(x.phase, x.rc, x.cpuUsec, x.memBytes, x.secs, x.b64);
    BodyIsALine(words);
    QuietPrefix(x.Body(), n);
    WordsStartWithPhase(x.phase, x.rc, x.cpuUsec, x.memBytes, x.secs, x.b64);
    ExtractBody(stderr, nonce, x.Body()[..n], end);
    FieldsOfCut(x, n);
  }

  lemma BodyIsALine(words: seq<string>)
    requires QuietWords(words)
    ensures Quiet(Join(words)) && '\n' !in Join(words)
  {
    QuietJoin(words);
    JoinHasNoNewline(words);
  }

  lemma TakenSlices(stderr: string, nonce: string, body: string, limit: int)
    ensures var n := limit - |stderr| - 1 - |nonce| - 1;
            var all := stderr + ("\n" + (nonce + " " + body) + "\n");
            && (0 <= n <= |body| ==> Taken(all, limit) == stderr + ("\n" + (nonce + " " + body[..n]) + ""))
            && (n > |body| ==> Taken(all, limit) == all && body[..|body|] == body)
  {
  }

  /**
   What the parser makes of the stream for every limit. Before the phase gets
   through there is no marker and the captured bytes pass unchanged; from then on
   the program's stderr is recovered exactly and each field is read from the bytes
   of it that were captured.
   */
  lemma ExtractOfCut(stderr: string, nonce: string, x: Line, limit: int)
    requires CleanNonce(nonce) && x.Printable()
    requires limit < |stderr| + 1 + |Pattern(nonce)| ==> !Contains(Taken(stderr, limit), Pattern(nonce))
    ensures var captured := Taken(stderr + x.Emitted(nonce), limit);
            var n := limit - |stderr| - 1 - |nonce| - 1;
            Extract(captured, nonce) ==
            if n < |"phase="| then (captured, NO_MARKER, false) else (stderr, Clamped(x.Cut(n)), n > |"phase="|)
  {
    hide Extract, Line.Cut, Clamped, Contains, Join;
    var body := x.Body();
    var line := nonce + " " + body + "\n";
    var n := limit - |stderr| - 1 - |nonce| - 1;
    assert x.Emitted(nonce) == "\n" + line == "\n" + (nonce + " " + body) + "\n";
    assert |Pattern(nonce)| == |nonce| + 1 + |"phase="|;
    TakenSlices(stderr, nonce, body, limit);
    if n < |"phase="| {
      CutBeforeThePattern(stderr, nonce, line, limit);
    } else if n <= |body| {
      CutAfterThePattern(stderr, nonce, x, n, "");
    } else {
      WordsStartWithPhase(x.phase, x.rc, x.cpuUsec, x.memBytes, x.secs, x.b64);
      CutAfterThePattern(stderr, nonce, x, |body|, "\n");
      CutAtEnd(x, n);
    }
  }

  /**
   Exactly when a marker is found. For a program whose stderr does not contain the
   pattern, the parser reports a marker if and only if the limit lets at least one
   byte of the phase through; until then nothing of the line is recognised, and
   once it is, the program's own stderr is recovered exactly.
   */
  lemma FoundIffPhaseCaptured(
    stderr: string, nonce: string, phase: string, rc: int, cpuUsec: int, memBytes: int, secs: int, b64: string, limit: int)
    requires CleanNonce(nonce) && phase != "" && NoSpace(phase) && NoSpace(b64)
    requires IsInt64(rc) && IsInt64(cpuUsec) && IsInt64(memBytes) && IsInt64(secs)
    requires !Contains(stderr, Pattern(nonce))
    ensures var captured := Taken(stderr + Emit(nonce, phase, rc, cpuUsec, memBytes, secs, b64), limit);
            var (clean, m, found) := Extract(captured, nonce);
            && (found <==> limit > |stderr| + 1 + |Pattern(nonce)|)
            && (found ==> clean == stderr)
            && (limit < |stderr| + 1 + |Pattern(nonce)| ==> clean == captured)
  {
    hide Extract, Emit, Line.Body;
    PrefixLacks(stderr, limit, Pattern(nonce));
    ExtractOfCut(stderr, nonce, Line(phase, rc, cpuUsec, memBytes, secs, b64), limit);
    assert |Pattern(nonce)| == |nonce| + 1 + |"phase="|;
  }

  /**
   Exactly when the values of a marker that is found are right: a number if and only
   if its last digit was captured or it is the 0 (for the CPU time, the non-positive
   number) that a missing field reads as; the phase if and only if all of it was.
   */
  lemma ValuesSurviveIff(stderr: string, nonce: string, x: Line, limit: int)
    requires CleanNonce(nonce) && x.Printable() && !Contains(stderr, Pattern(nonce))
    ensures var (clean, m, found) := Extract(Taken(stderr + x.Emitted(nonce), limit), nonce);
            var n := limit - |stderr| - 1 - |nonce| - 1;
            found ==>
              && (m.phase == x.phase <==> n >= |"phase="| + |x.phase|)
              && (m.rc == x.rc <==> x.rc == 0 || n >= x.RcAt() + |Decimal(x.rc)|)
              && (m.cpuUsec == Max(x.cpuUsec, 0) <==> x.cpuUsec <= 0 || n >= x.CpuAt() + |Decimal(x.cpuUsec)|)
              && (m.memBytes == x.memBytes <==> x.memBytes == 0 || n >= x.MemAt() + |Decimal(x.memBytes)|)
              && (m.secs == x.secs <==> x.secs == 0 || n >= x.SecsAt() + |Decimal(x.secs)|)
  {
    hide Extract, Contains, CutNumber, CutText, Decimal, Line.Body;
    PrefixLacks(stderr, limit, Pattern(nonce));
    ExtractOfCut(stderr, nonce, x, limit);
    var n := limit - |stderr| - 1 - |nonce| - 1;
    assert |Pattern(nonce)| == |nonce| + 1 + |"phase="|;
    CutNumberIs(x.rc, n - x.RcAt());
    CutNumberIs(x.cpuUsec, n - x.CpuAt());
    CutNumberIs(x.memBytes, n - x.MemAt());
    CutNumberIs(x.secs, n - x.SecsAt());
    assert n >= |"phase="| + |x.phase| ==> x.phase[..|x.phase|] == x.phase;
  }

  /**
   The failures this leaves, on concrete limits: one byte past the pattern a marker is
   found that says exit status 0 whatever the program returned, and just before the
   last digit of an exit status of 10 or more, a tenth of it.
   */
  lemma CutCorruptsTheExitStatus(
    stderr: string, nonce: string, phase: string, rc: int, cpuUsec: int, memBytes: int, secs: int, b64: string)
    requires CleanNonce(nonce) && Line(phase, rc, cpuUsec, memBytes, secs, b64).Printable()
    ensures var all := stderr + Emit(nonce, phase, rc, cpuUsec, memBytes, secs, b64);
            var early := |stderr| + 1 + |Pattern(nonce)| + 1;
            var late := |stderr| + 1 + |nonce| + 1 + |"phase="| + |phase| + |" rc="| + |Decimal(rc)| - 1;
            && Extract(Taken(all, early), nonce).2 && Extract(Taken(all, early), nonce).1.rc == 0
            && (rc >= 10 ==> Extract(Taken(all, late), nonce).2 && Extract(Taken(all, late), nonce).1.rc == rc / 10)
  {
    hide Extract, CutText, Contains;
    var x := Line(phase, rc, cpuUsec, memBytes, secs, b64);
    var early := |stderr| + 1 + |Pattern(nonce)| + 1;
    var late := |stderr| + 1 + |nonce| + 1 + |"phase="| + |phase| + |" rc="| + |Decimal(rc)| - 1;
    assert |Pattern(nonce)| == |nonce| + 1 + |"phase="|;
    DecimalIsWord(rc);
    ExtractOfCut(stderr, nonce, x, early);
    ExtractOfCut(stderr, nonce, x, late);
    CutNumberIs(rc, |Decimal(rc)| - 1);
  }

  /** If the limit holds everything, all of it comes back. */
  lemma NothingIsLostUnderTheLimit(
    stderr: string, nonce: string, phase: string, rc: int, cpuUsec: int, memBytes: int, secs: int, b64: string, limit: int)
    requires CleanNonce(nonce) && phase != "" && NoSpace(phase) && NoSpace(b64)
    requires IsInt64(rc) && IsInt64(cpuUsec) && IsInt64(memBytes) && IsInt64(secs)
    requires |stderr| + |Emit(nonce, phase, rc, cpuUsec, memBytes, secs, b64)| <= limit
    ensures Extract(Taken(stderr + Emit(nonce, phase, rc, cpuUsec, memBytes, secs, b64), limit), nonce) ==
            (stderr,
             Marker(phase, rc, Max(cpuUsec, 0), memBytes, secs, if Decode(b64).Some? then Decode(b64).value else ""),
             true)
  {
    ExtractUndoesEmit(stderr, nonce, phase, rc, cpuUsec, memBytes, secs, b64);
  }
}
