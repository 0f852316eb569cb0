/**
 The parts of Go's `strings` and `strconv` that the marker parser uses, and the
 decimal numbers the shell prints.

 A Go string is a sequence of bytes. Here it is a `string` in which each
 character stands for one byte.
 */
module Text {

  // ------------------------------------------------------------------ search

  predicate OccursAt(s: string, p: string, i: int) {
    0 <= i && i + |p| <= |s| && s[i..i + |p|] == p
  }

  /** Searches downwards from position `i`. */
  function LastIndexUpTo(s: string, p: string, i: int): (r: int)
    requires i + |p| <= |s|
    ensures r == -1 || OccursAt(s, p, r)
    decreases i
  {
    if i < 0 then -1 else if OccursAt(s, p, i) then i else LastIndexUpTo(s, p, i - 1)
  }

  /** strings.LastIndex */
  function LastIndex(s: string, p: string): (r: int)
    ensures r == -1 || OccursAt(s, p, r)
  {
    if |p| > |s| then -1 else LastIndexUpTo(s, p, |s| - |p|)
  }

  lemma {:induction false} LastIndexUpToIs(s: string, p: string, i: int, from: int)
    requires 0 <= i <= from && from + |p| <= |s|
    requires OccursAt(s, p, i) && forall j :: i < j <= from ==> !OccursAt(s, p, j)
    ensures LastIndexUpTo(s, p, from) == i
    decreases from
  {
    if from != i {
      LastIndexUpToIs(s, p, i, from - 1);
    }
  }

  lemma {:induction false} LastIndexUpToNone(s: string, p: string, from: int)
    requires from + |p| <= |s|
    requires forall j :: 0 <= j <= from ==> !OccursAt(s, p, j)
    ensures LastIndexUpTo(s, p, from) == -1
    decreases from
  {
    if from >= 0 {
      LastIndexUpToNone(s, p, from - 1);
    }
  }

  /** LastIndex finds the occurrence that no other occurrence follows. */
  lemma LastIndexIs(s: string, p: string, i: int)
    requires OccursAt(s, p, i) && forall j :: i < j ==> !OccursAt(s, p, j)
    ensures LastIndex(s, p) == i
  {
    LastIndexUpToIs(s, p, i, |s| - |p|);
  }

  lemma LastIndexNone(s: string, p: string)
    requires forall j :: !OccursAt(s, p, j)
    ensures LastIndex(s, p) == -1
  {
    if |p| <= |s| {
      LastIndexUpToNone(s, p, |s| - |p|);
    }
  }

  /** strings.IndexByte */
  function IndexByte(s: string, c: char): (r: int)
    ensures -1 <= r < |s|
  {
    if s == "" then -1
    else if s[0] == c then 0
    else var r := IndexByte(s[1..], c); if r < 0 then -1 else r + 1
  }

  lemma {:induction false} IndexByteIs(s: string, c: char, i: nat)
    requires i < |s| && s[i] == c && c !in s[..i]
    ensures IndexByte(s, c) == i
  {
    if i > 0 {
      assert s[0] == s[..i][0];
      assert s[1..][..i - 1] == s[..i][1..];
      IndexByteIs(s[1..], c, i - 1);
    }
  }

  lemma {:induction false} IndexByteNone(s: string, c: char)
    requires c !in s
    ensures IndexByte(s, c) == -1
  {
    if s != "" {
      IndexByteNone(s[1..], c);
    }
  }

  function TrimSuffix(s: string, suffix: string): string {
    if |suffix| <= |s| && s[|s| - |suffix|..] == suffix then s[..|s| - |suffix|] else s
  }

  function TrimPrefix(s: string, prefix: string): string {
    if prefix <= s then s[|prefix|..] else s
  }

  /** strings.Cut on a one-byte separator: what precedes and follows its first occurrence. */
  function Cut(s: string, sep: char): (string, string, bool) {
    var i := IndexByte(s, sep);
    if 0 <= i < |s| then (s[..i], s[i + 1..], true) else (s, "", false)
  }

  /** Only the first separator cuts: the value may contain more of them. */
  lemma CutAtFirst(k: string, sep: char, v: string)
    requires sep !in k
    ensures Cut(k + [sep] + v, sep) == (k, v, true)
  {
    var s := k + [sep] + v;
    assert s[..|k|] == k && s[|k|] == sep;
    IndexByteIs(s, sep, |k|);
    assert s[|k| + 1..] == v;
  }

  // ------------------------------------------------------------------ fields

  predicate IsSpace(c: char) {
    c == ' ' || c == '\t' || c == '\n' || c == '\r' || c == '\U{0B}' || c == '\U{0C}'
  }

  predicate NoSpace(s: string) {
    forall i :: 0 <= i < |s| ==> !IsSpace(s[i])
  }

  lemma NoSpaceLacks(s: string, c: char)
    requires NoSpace(s) && IsSpace(c)
    ensures c !in s
  {
  }

  /** Length of the longest prefix without white space. */
  function WordLength(s: string): (n: nat)
    ensures n <= |s| && NoSpace(s[..n]) && (n < |s| ==> IsSpace(s[n]))
  {
    if s == "" || IsSpace(s[0]) then 0
    else
      var n := 1 + WordLength(s[1..]);
      assert forall i :: 0 <= i < n ==> s[..n][i] == if i == 0 then s[0] else s[1..][..n - 1][i - 1];
      n
  }

  /** strings.Fields on a string whose white space is ASCII. */
  function Fields(s: string): seq<string>
    decreases |s|
  {
    if s == "" then []
    else if IsSpace(s[0]) then Fields(s[1..])
    else var n := WordLength(s); if n == 0 then [] else [s[..n]] + Fields(s[n..])
  }

  /** Words separated by single blanks. */
  function Join(words: seq<string>): string {
    if words == [] then "" else if |words| == 1 then words[0] else words[0] + " " + Join(words[1..])
  }

  predicate IsWord(w: string) {
    w != "" && NoSpace(w)
  }

  lemma {:induction false} WordLengthIs(w: string, rest: string)
    requires NoSpace(w) && (rest == "" || IsSpace(rest[0]))
    ensures WordLength(w + rest) == |w|
  {
    if w == "" {
      assert w + rest == rest;
    } else {
      assert (w + rest)[1..] == w[1..] + rest;
      WordLengthIs(w[1..], rest);
    }
  }

  lemma FieldsOfWord(w: string)
    requires IsWord(w)
    ensures Fields(w) == [w]
  {
    WordLengthIs(w, "");
    assert w + "" == w && w[..|w|] == w && w[|w|..] == "";
    assert Fields("") == [];
  }

  lemma FieldsCons(w: string, rest: string)
    requires IsWord(w)
    ensures Fields(w + " " + rest) == [w] + Fields(rest)
  {
    var tail := " " + rest;
    var s := w + tail;
    assert s == w + " " + rest;
    WordLengthIs(w, tail);
    assert s[..|w|] == w && s[|w|..] == tail && tail[1..] == rest;
    assert Fields(tail) == Fields(rest);
  }

  /** Fields undoes Join. */
  lemma {:induction false} FieldsOfJoin(words: seq<string>)
    requires forall i :: 0 <= i < |words| ==> IsWord(words[i])
    ensures Fields(Join(words)) == words
  {
    if |words| == 1 {
      FieldsOfWord(words[0]);
      assert words == [words[0]];
    } else if |words| > 1 {
      FieldsCons(words[0], Join(words[1..]));
      FieldsOfJoin(words[1..]);
      assert words == [words[0]] + words[1..];
    }
  }

  /** White space separates, however much of it there is and whatever stands around it. */
  lemma {:induction false} FieldsSplit(a: string, c: char, b: string)
    requires IsSpace(c)
    ensures Fields(a + [c] + b) == Fields(a) + Fields(b)
    decreases |a|
  {
    var s := a + [c] + b;
    if a == "" {
      assert s[0] == c && s[1..] == b;
    } else if IsSpace(a[0]) {
      assert s[1..] == a[1..] + [c] + b;
      FieldsSplit(a[1..], c, b);
    } else {
      var n := WordLength(a);
      assert s == a[..n] + (a[n..] + [c] + b);
      WordLengthIs(a[..n], a[n..] + [c] + b);
      assert a == a[..n] + a[n..];
      assert n > 0;
      assert s[..n] == a[..n] && s[n..] == a[n..] + [c] + b;
      FieldsSplit(a[n..], c, b);
    }
  }

  // ----------------------------------------------------------------- numbers

  const TWO_63: int := 0x8000_0000_0000_0000
  const TWO_64: int := 0x1_0000_0000_0000_0000

  predicate IsInt64(n: int) {
    -TWO_63 <= n < TWO_63
  }

  predicate IsDigit(c: char) {
    '0' <= c <= '9'
  }

  function DigitOf(d: nat): char
    requires d < 10
  {
    '0' + d as char
  }

  function DigitValue(c: char): nat
    requires IsDigit(c)
  {
    (c as int) - ('0' as int)
  }

  function Digits(n: nat): string {
    if n < 10 then [DigitOf(n)] else Digits(n / 10) + [DigitOf(n % 10)]
  }

  /** An integer as the shell prints it. */
  function Decimal(n: int): string {
    if n < 0 then "-" + Digits(-n) else Digits(n)
  }

  datatype Parsed = Value(n: nat) | Syntax | Range

  /** The digit loop of strconv.ParseUint(…, 10, 64), `n` having been read so far. */
  function ParseUint(n: nat, s: string): Parsed
    decreases |s|
  {
    if s == "" then Value(n)
    else if !IsDigit(s[0]) then Syntax
    else if 10 * n + DigitValue(s[0]) >= TWO_64 then Range
    else ParseUint(10 * n + DigitValue(s[0]), s[1..])
  }

  /**
   The value strconv.ParseInt(s, 10, 64) yields, its error being dropped: zero on
   malformed input, the nearest int64 on overflow.
   */
  function ParseInt(s: string): (n: int)
    ensures IsInt64(n)
  {
    if s == "" then 0
    else
      var neg := s[0] == '-';
      var digits := if s[0] == '-' || s[0] == '+' then s[1..] else s;
      if digits == "" then 0
      else match ParseUint(0, digits)
        case Syntax => 0
        case Range => if neg then -TWO_63 else TWO_63 - 1
        case Value(u) =>
          if neg then (if u > TWO_63 then -TWO_63 else 0 - u)
          else if u >= TWO_63 then TWO_63 - 1 else u
  }

  lemma {:induction false} ParseUintSnoc(n: nat, s: string, c: char)
    requires IsDigit(c) && ParseUint(n, s).Value?
    ensures ParseUint(n, s + [c]) ==
            var v := 10 * ParseUint(n, s).n + DigitValue(c);
            if v >= TWO_64 then Range else Value(v)
    decreases |s|
  {
    if s == "" {
      assert s + [c] == [c] && [c][1..] == "";
    } else {
      assert (s + [c])[1..] == s[1..] + [c];
      ParseUintSnoc(10 * n + DigitValue(s[0]), s[1..], c);
    }
  }

  lemma {:induction false} ParseUintOfDigits(n: nat)
    requires n < TWO_64
    ensures ParseUint(0, Digits(n)) == Value(n)
  {
    if n < 10 {
      assert [DigitOf(n)][1..] == "";
      assert ParseUint(n, "") == Value(n);
    } else {
      ParseUintOfDigits(n / 10);
      ParseUintSnoc(0, Digits(n / 10), DigitOf(n % 10));
    }
  }

  lemma {:induction false} DigitsAreDigits(n: nat)
    ensures Digits(n) != "" && forall i :: 0 <= i < |Digits(n)| ==> IsDigit(Digits(n)[i])
  {
    if n >= 10 {
      DigitsAreDigits(n / 10);
    }
  }

  function Pow10(k: nat): nat {
    if k == 0 then 1 else 10 * Pow10(k - 1)
  }

  lemma {:induction false} DigitsLength(n: nat, k: nat)
    requires 1 <= k && n < Pow10(k)
    ensures |Digits(n)| <= k
  {
    assert Pow10(1) == 10 * Pow10(0) == 10;
    if n >= 10 {
      DigitsLength(n / 10, k - 1);
    }
  }

  lemma Int64Length(n: int)
    requires IsInt64(n)
    ensures |Decimal(n)| <= 20
  {
    assert Pow10(5) == 100_000;
    assert Pow10(10) == 10_000_000_000;
    assert Pow10(15) == 1_000_000_000_000_000;
    assert Pow10(19) == 10_000_000_000_000_000_000;
    DigitsLength(if n < 0 then -n else n, 19);
  }

  lemma DecimalIsWord(n: int)
    ensures IsWord(Decimal(n))
  {
    DigitsAreDigits(if n < 0 then -n else n);
  }

  /** Every int64 survives being printed and parsed. */
  lemma ParseIntOfDecimal(n: int)
    requires IsInt64(n)
    ensures ParseInt(Decimal(n)) == n
  {
    var u := if n < 0 then -n else n;
    ParseUintOfDigits(u);
    DigitsAreDigits(u);
    if n < 0 {
      assert ("-" + Digits(u))[1..] == Digits(u);
    }
  }

  /** What is left of a number when its last digits are missing is a smaller number. */
  lemma {:induction false} DigitsPrefix(n: nat, k: nat) returns (u: nat)
    requires 0 < k < |Digits(n)|
    ensures 1 <= u <= n / 10 && Digits(n)[..k] == Digits(u)
    ensures k == |Digits(n)| - 1 ==> u == n / 10
  {
    assert n >= 10;
    if k == |Digits(n / 10)| {
      u := n / 10;
    } else {
      u := DigitsPrefix(n / 10, k);
      assert Digits(n)[..k] == Digits(n / 10)[..k];
    }
  }

  /** Every integer in decimal form is read: exactly, or as the nearest int64. */
  lemma ParseIntSaturates(n: int)
    ensures ParseInt(Decimal(n)) == if n >= TWO_63 then TWO_63 - 1 else if n < -TWO_63 then -TWO_63 else n
  {
    var u := if n < 0 then -n else n;
    ParseUintOfAny(u);
    DigitsAreDigits(u);
    if n < 0 {
      assert Decimal(n)[1..] == Digits(u);
    }
  }

  lemma {:induction false} ParseUintOfAny(n: nat)
    ensures ParseUint(0, Digits(n)) == if n < TWO_64 then Value(n) else Range
  {
    if n < TWO_64 {
      ParseUintOfDigits(n);
    } else {
      ParseUintOfAny(n / 10);
      if n / 10 < TWO_64 {
        ParseUintSnoc(0, Digits(n / 10), DigitOf(n % 10));
      } else {
        RangeStays(0, Digits(n / 10), DigitOf(n % 10));
      }
    }
  }

  lemma {:induction false} RangeStays(n: nat, s: string, c: char)
    requires ParseUint(n, s) == Range
    ensures ParseUint(n, s + [c]) == Range
    decreases |s|
  {
    assert (s + [c])[1..] == s[1..] + [c];
    if IsDigit(s[0]) && 10 * n + DigitValue(s[0]) < TWO_64 {
      RangeStays(10 * n + DigitValue(s[0]), s[1..], c);
    }
  }

  /** What is not a number counts as zero. */
  lemma ParseIntOfNonsense(s: string)
    requires s == "" || s == "-" || s == "+" || (!IsDigit(s[0]) && s[0] != '-' && s[0] != '+')
    ensures ParseInt(s) == 0
  {
  }
}
