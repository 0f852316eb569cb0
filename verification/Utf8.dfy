/**
 Valid UTF-8 (section 4 of RFC 3629), which is all that a Postgres text column
 stores, and what cutting a text after a number of bytes does to it.

 As everywhere, a string has one character per byte.
 */
module Utf8 {

  /** A byte that only occurs inside a character, never at its start. */
  predicate IsTail(c: char) {
    0x80 <= c as int <= 0xBF
  }

  /** Second bytes that would make an overlong form, a surrogate or a value past U+10FFFF are excluded. */
  predicate IsSecond(lead: int, c: char) {
    (if lead == 0xE0 then 0xA0 else if lead == 0xF0 then 0x90 else 0x80) <= c as int
    <= (if lead == 0xED then 0x9F else if lead == 0xF4 then 0x8F else 0xBF)
  }

  /** Length of the character `s` begins with, 0 if it does not begin with one. */
  function CharLength(s: string): (n: nat)
    ensures n <= |s| && n <= 4
    ensures n > 0 ==> !IsTail(s[0]) && forall i :: 1 <= i < n ==> IsTail(s[i])
  {
    if s == "" then 0
    else
      var lead := s[0] as int;
      if lead <= 0x7F then 1
      else if 0xC2 <= lead <= 0xDF then if |s| >= 2 && IsTail(s[1]) then 2 else 0
      else if 0xE0 <= lead <= 0xEF then if |s| >= 3 && IsSecond(lead, s[1]) && IsTail(s[2]) then 3 else 0
      else if 0xF0 <= lead <= 0xF4 then if |s| >= 4 && IsSecond(lead, s[1]) && IsTail(s[2]) && IsTail(s[3]) then 4 else 0
      else 0
  }

  predicate Valid(s: string)
    decreases |s|
  {
    s == "" || (CharLength(s) > 0 && Valid(s[CharLength(s)..]))
  }

  /** A character is recognised from its own bytes alone, and from all of them. */
  lemma CharLengthOfPrefix(s: string, n: nat)
    requires CharLength(s) > 0 && n <= |s|
    ensures CharLength(s[..n]) == if n >= CharLength(s) then CharLength(s) else 0
  {
  }

  /**
   Cutting a valid text leaves a valid text if and only if the first byte that is cut
   off starts a character.
   */
  lemma {:induction false} CutIsValidIff(s: string, n: nat)
    requires Valid(s) && n < |s|
    ensures Valid(s[..n]) <==> !IsTail(s[n])
    decreases |s|
  {
    var k := CharLength(s);
    if n >= k {
      CharLengthOfPrefix(s, n);
      if n > k {
        CutIsValidIff(s[k..], n - k);
        assert s[..n][k..] == s[k..][..n - k];
      } else {
        assert s[..n][k..] == "";
        assert s[k..] != "" && CharLength(s[k..]) > 0;
      }
    } else if n > 0 {
      CharLengthOfPrefix(s, n);
    }
  }
}
