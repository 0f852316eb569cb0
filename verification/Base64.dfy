/**
 Base 64 as in section 4 of RFC 4648: encoding/base64's StdEncoding on the Go
 side, base64(1) inside the sandbox. The decoder is Go's: it skips line breaks
 and does not look at the unused low bits of the last symbol.
 */
module Base64 {
  import opened Prelude
  import opened Text

  predicate IsBytes(s: string) {
    forall i :: 0 <= i < |s| ==> s[i] as int < 256
  }

  function Symbol(d: nat): char
    requires d < 64
  {
    if d < 26 then 'A' + d as char
    else if d < 52 then 'a' + (d - 26) as char
    else if d < 62 then '0' + (d - 52) as char
    else if d == 62 then '+' else '/'
  }

  /** The 6 bits a symbol stands for, -1 when it is none. */
  function SymbolValue(c: char): (d: int)
    ensures -1 <= d < 64
  {
    if 'A' <= c <= 'Z' then c as int - 'A' as int
    else if 'a' <= c <= 'z' then c as int - 'a' as int + 26
    else if '0' <= c <= '9' then c as int - '0' as int + 52
    else if c == '+' then 62 else if c == '/' then 63 else -1
  }

  /** Table 1 of RFC 4648: three runs of consecutive characters, and two more. */
  lemma SymbolsAreTheStandardOnes(d: nat)
    requires d < 63
    ensures Symbol(0) == 'A' && Symbol(26) == 'a' && Symbol(52) == '0' && Symbol(62) == '+' && Symbol(63) == '/'
    ensures d != 25 && d != 51 && d < 61 ==> Symbol(d + 1) as int == Symbol(d) as int + 1
  {
  }

  lemma SymbolRoundTrip(d: nat)
    requires d < 64
    ensures SymbolValue(Symbol(d)) == d && Symbol(d) != '=' && !IsSpace(Symbol(d))
  {
  }

  /** The four 6-bit digits of three bytes, first to last. */
  function Digit0(a: char): (d: nat) requires a as int < 256 ensures d < 64 { a as int / 4 }
  function Digit1(a: char, b: char): (d: nat) requires a as int < 256 && b as int < 256 ensures d < 64 { a as int % 4 * 16 + b as int / 16 }
  function Digit2(b: char, c: char): (d: nat) requires b as int < 256 && c as int < 256 ensures d < 64 { b as int % 16 * 4 + c as int / 64 }
  function Digit3(c: char): (d: nat) requires c as int < 256 ensures d < 64 { c as int % 64 }

  /** A missing byte of the last group counts as zero. */
  const ZERO: char := '\0'

  function Encode(s: string): string
    requires IsBytes(s)
  {
    if s == "" then ""
    else if |s| == 1 then [Symbol(Digit0(s[0])), Symbol(Digit1(s[0], ZERO)), '=', '=']
    else if |s| == 2 then [Symbol(Digit0(s[0])), Symbol(Digit1(s[0], s[1])), Symbol(Digit2(s[1], ZERO)), '=']
    else Quad(s[0], s[1], s[2]) + Encode(s[3..])
  }

  function Quad(a: char, b: char, c: char): string
    requires a as int < 256 && b as int < 256 && c as int < 256
  {
    [Symbol(Digit0(a)), Symbol(Digit1(a, b)), Symbol(Digit2(b, c)), Symbol(Digit3(c))]
  }

  /** The four digits of a group are those of its 24 bits, most significant first. */
  lemma QuadIs24Bits(a: char, b: char, c: char)
    requires a as int < 256 && b as int < 256 && c as int < 256
    ensures Digit0(a) * 0x4_0000 + Digit1(a, b) * 0x1000 + Digit2(b, c) * 0x40 + Digit3(c) ==
            a as int * 0x1_0000 + b as int * 0x100 + c as int
  {
  }

  /** Section 10 of RFC 4648: what is left over is padded. */
  lemma TestVectors()
    ensures Encode("") == "" && Encode("f") == "Zg==" && Encode("fo") == "Zm8=" && Encode("foo") == "Zm9v"
    ensures Encode("foobar") == "Zm9vYmFy"
  {
    assert "foobar"[3..] == "bar" && "foo"[3..] == "" && "bar"[3..] == "";
    assert Encode("bar") == Quad('b', 'a', 'r') + Encode("");
  }

  /** The three bytes of four 6-bit digits, first to last. */
  function Byte0(v: nat, w: nat): char requires v < 64 && w < 64 { (v * 4 + w / 16) as char }
  function Byte1(w: nat, x: nat): char requires w < 64 && x < 64 { (w % 16 * 16 + x / 4) as char }
  function Byte2(x: nat, y: nat): char requires x < 64 && y < 64 { (x % 4 * 64 + y) as char }

  /** Decodes whole groups of four; only the last one may be padded. */
  function DecodeGroups(s: string): Option<string> {
    if s == "" then Some("")
    else if |s| < 4 then None
    else
      var v, w, x, y := SymbolValue(s[0]), SymbolValue(s[1]), SymbolValue(s[2]), SymbolValue(s[3]);
      if v < 0 || w < 0 then None
      else
        var first := Byte0(v, w);
        if s[2] == '=' then (if s[3] == '=' && |s| == 4 then Some([first]) else None)
        else if x < 0 then None
        else
          var second := Byte1(w, x);
          if s[3] == '=' then (if |s| == 4 then Some([first, second]) else None)
          else if y < 0 then None
          else
            match DecodeGroups(s[4..])
            case None => None
            case Some(rest) => Some([first, second, Byte2(x, y)] + rest)
  }

  /** `s` without any `c`, as `tr -d` leaves it. */
  function Without(s: string, c: char): string {
    if s == "" then "" else if s[0] == c then Without(s[1..], c) else [s[0]] + Without(s[1..], c)
  }

  /** StdEncoding.DecodeString; None is its error. */
  function Decode(s: string): Option<string> {
    DecodeGroups(Without(Without(s, '\r'), '\n'))
  }

  lemma {:induction false} WithoutAbsent(s: string, c: char)
    requires c !in s
    ensures Without(s, c) == s
  {
    if s != "" {
      WithoutAbsent(s[1..], c);
    }
  }

  /** Splitting three bytes into four digits loses nothing. */
  lemma Regroup(a: char, b: char, c: char)
    requires a as int < 256 && b as int < 256 && c as int < 256
    ensures Byte0(Digit0(a), Digit1(a, b)) == a
    ensures Byte1(Digit1(a, b), Digit2(b, c)) == b
    ensures Byte2(Digit2(b, c), Digit3(c)) == c
  {
  }

  lemma DecodeQuad(a: char, b: char, c: char, tail: string)
    requires a as int < 256 && b as int < 256 && c as int < 256 && DecodeGroups(tail).Some?
    ensures DecodeGroups(Quad(a, b, c) + tail) == Some([a, b, c] + DecodeGroups(tail).value)
  {
    var v, w, x, y := Digit0(a), Digit1(a, b), Digit2(b, c), Digit3(c);
    DecodeFullGroup(v, w, x, y, tail);
    Regroup(a, b, c);
  }

  /** A full group of four symbols decodes to its three bytes. */
  lemma DecodeFullGroup(v: nat, w: nat, x: nat, y: nat, tail: string)
    requires v < 64 && w < 64 && x < 64 && y < 64 && DecodeGroups(tail).Some?
    ensures DecodeGroups([Symbol(v), Symbol(w), Symbol(x), Symbol(y)] + tail) ==
            Some([Byte0(v, w), Byte1(w, x), Byte2(x, y)] + DecodeGroups(tail).value)
  {
    var s := [Symbol(v), Symbol(w), Symbol(x), Symbol(y)] + tail;
    SymbolRoundTrip(v);
    SymbolRoundTrip(w);
    SymbolRoundTrip(x);
    SymbolRoundTrip(y);
    assert s[4..] == tail;
  }

  lemma DecodeOneByte(a: char)
    requires a as int < 256
    ensures DecodeGroups([Symbol(Digit0(a)), Symbol(Digit1(a, ZERO)), '=', '=']) == Some([a])
  {
    SymbolRoundTrip(Digit0(a));
    SymbolRoundTrip(Digit1(a, ZERO));
    Regroup(a, ZERO, ZERO);
  }

  lemma DecodeTwoBytes(a: char, b: char)
    requires a as int < 256 && b as int < 256
    ensures DecodeGroups([Symbol(Digit0(a)), Symbol(Digit1(a, b)), Symbol(Digit2(b, ZERO)), '=']) == Some([a, b])
  {
    SymbolRoundTrip(Digit0(a));
    SymbolRoundTrip(Digit1(a, b));
    SymbolRoundTrip(Digit2(b, ZERO));
    Regroup(a, b, ZERO);
  }

  lemma {:induction false} DecodeGroupsOfEncode(s: string)
    requires IsBytes(s)
    ensures DecodeGroups(Encode(s)) == Some(s)
  {
    if |s| == 1 {
      DecodeOneByte(s[0]);
      assert s == [s[0]];
    } else if |s| == 2 {
      DecodeTwoBytes(s[0], s[1]);
      assert s == [s[0], s[1]];
    } else if |s| >= 3 {
      DecodeGroupsOfEncode(s[3..]);
      DecodeQuad(s[0], s[1], s[2], Encode(s[3..]));
      assert [s[0], s[1], s[2]] + s[3..] == s;
    }
  }

  /** Encoded text holds only symbols and padding: no blank, no line break. */
  lemma {:induction false} EncodeHasNoSpace(s: string)
    requires IsBytes(s)
    ensures NoSpace(Encode(s))
  {
    if s != "" {
      forall d: nat | d < 64
        ensures !IsSpace(Symbol(d))
      {
        SymbolRoundTrip(d);
      }
      if |s| >= 3 {
        EncodeHasNoSpace(s[3..]);
      }
    }
  }

  /** Decoding gives back every byte that was encoded. */
  lemma RoundTrip(s: string)
    requires IsBytes(s)
    ensures Decode(Encode(s)) == Some(s)
  {
    EncodeHasNoSpace(s);
    var e := Encode(s);
    NoSpaceLacks(e, '\r');
    NoSpaceLacks(e, '\n');
    WithoutAbsent(e, '\r');
    WithoutAbsent(e, '\n');
    DecodeGroupsOfEncode(s);
  }

  /** Four symbols for every group of up to three bytes. */
  function EncodedSize(n: nat): nat {
    (n + 2) / 3 * 4
  }

  lemma EncodedSizeStep(n: nat)
    ensures EncodedSize(n + 3) == 4 + EncodedSize(n)
    ensures EncodedSize(0) == 0 && EncodedSize(1) == EncodedSize(2) == 4
  {
  }

  lemma {:induction false} EncodedLength(s: string)
    requires IsBytes(s)
    ensures |Encode(s)| == EncodedSize(|s|)
  {
    EncodedSizeStep(0);
    if |s| >= 3 {
      EncodedLength(s[3..]);
      EncodedSizeStep(|s[3..]|);
      assert |Encode(s)| == |Quad(s[0], s[1], s[2])| + |Encode(s[3..])|;
    }
  }

  // ------------------------------------------------------------- base64(1)

  const COLUMNS := 76

  /** base64(1) breaks its output into lines. */
  function Wrap(s: string): string {
    if s == "" then "" else if |s| <= COLUMNS then s + "\n" else s[..COLUMNS] + "\n" + Wrap(s[COLUMNS..])
  }

  lemma {:induction false} WithoutConcat(s: string, t: string, c: char)
    ensures Without(s + t, c) == Without(s, c) + Without(t, c)
  {
    if s == "" {
      assert s + t == t;
    } else {
      assert (s + t)[1..] == s[1..] + t;
      WithoutConcat(s[1..], t, c);
    }
  }

  /** `base64 | tr -d '\n'` is the unbroken encoding. */
  lemma {:induction false} UnwrapIsIdentity(s: string)
    requires '\n' !in s
    ensures Without(Wrap(s), '\n') == s
  {
    assert Without("\n", '\n') == Without("", '\n') == "";
    if s == "" {
    } else if |s| <= COLUMNS {
      WithoutConcat(s, "\n", '\n');
      WithoutAbsent(s, '\n');
    } else {
      var head, tail := s[..COLUMNS], s[COLUMNS..];
      WithoutConcat(head + "\n", Wrap(tail), '\n');
      WithoutConcat(head, "\n", '\n');
      WithoutAbsent(head, '\n');
      UnwrapIsIdentity(tail);
      assert head + tail == s;
    }
  }

  // --------------------------------------------------------- malformed input

  predicate IsSymbol(c: char) {
    SymbolValue(c) >= 0
  }

  /** Whole groups of four symbols, the last of which may end in one or two `=`. */
  predicate WellFormed(s: string) {
    s == "" ||
    (&& |s| % 4 == 0
     && (forall i :: 0 <= i < |s| - 2 ==> IsSymbol(s[i]))
     && (|| (IsSymbol(s[|s| - 2]) && (IsSymbol(s[|s| - 1]) || s[|s| - 1] == '='))
         || (s[|s| - 2] == '=' && s[|s| - 1] == '=')))
  }

  /** What is decoded: exactly the well-formed strings, whatever was put between their symbols as line breaks. */
  lemma DecodesIff(s: string)
    ensures Decode(s).Some? <==> WellFormed(Without(Without(s, '\r'), '\n'))
  {
    DecodesGroupsIff(Without(Without(s, '\r'), '\n'));
  }

  lemma {:induction false} DecodesGroupsIff(s: string)
    ensures DecodeGroups(s).Some? <==> WellFormed(s)
  {
    if |s| > 4 {
      hide WellFormed;
      DecodesGroupsIff(s[4..]);
      HeadAndTail(s);
    } else {
      OneGroupIff(s);
    }
  }

  lemma OneGroupIff(s: string)
    requires |s| <= 4
    ensures DecodeGroups(s).Some? <==> WellFormed(s)
  {
    if |s| == 4 {
      assert s[4..] == "";
    }
  }

  lemma HeadAndTail(s: string)
    requires |s| > 4
    ensures WellFormed(s) <==>
            IsSymbol(s[0]) && IsSymbol(s[1]) && IsSymbol(s[2]) && IsSymbol(s[3]) && WellFormed(s[4..])
  {
    var tail := s[4..];
    assert |tail| % 4 == 0 <==> |s| % 4 == 0;
    if WellFormed(s) {
      assert forall i :: 0 <= i < |tail| - 2 ==> tail[i] == s[i + 4];
    } else if WellFormed(tail) {
      assert forall i :: 4 <= i < |s| ==> s[i] == tail[i - 4];
    }
  }

  /** Line breaks in the input change nothing. */
  lemma DecodeSkipsLineBreaks(a: string, c: char, b: string)
    requires c == '\r' || c == '\n'
    ensures Decode(a + [c] + b) == Decode(a + b)
  {
    assert [c][1..] == "";
    var a', c', b' := Without(a, '\r'), Without([c], '\r'), Without(b, '\r');
    WithoutConcat(a + [c], b, '\r');
    WithoutConcat(a, [c], '\r');
    WithoutConcat(a, b, '\r');
    assert Without(a + [c] + b, '\r') == a' + c' + b' && Without(a + b, '\r') == a' + b';
    WithoutConcat(a' + c', b', '\n');
    WithoutConcat(a', c', '\n');
    WithoutConcat(a', b', '\n');
    assert c' == "" || (c' == [c] && c == '\n');
    assert Without(c', '\n') == "";
    assert Without(a' + c' + b', '\n') == Without(a', '\n') + Without(b', '\n');
  }
}
