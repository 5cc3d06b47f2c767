// Character and string helpers used by the stores: the decimal rendering of
// numbers (JavaScript's String(n) on integers), padStart, trim, toLowerCase,
// startsWith and includes.

module Wrappers {
  datatype Option<+T> = None | Some(value: T)
}

module Text {

  predicate IsDigit(c: char) { '0' <= c <= '9' }

  function DigitValue(c: char): int { c as int - '0' as int }

  function DigitChar(d: nat): (c: char)
    requires d < 10
    ensures IsDigit(c) && DigitValue(c) == d
  {
    (d + '0' as int) as char
  }

  predicate AllDigits(s: string) { forall i :: 0 <= i < |s| ==> IsDigit(s[i]) }

  /** Decimal rendering of a natural number, without leading zeros. */
  function NatToString(n: nat): (r: string)
    ensures |r| > 0 && AllDigits(r)
    ensures r[0] == '0' ==> n == 0
    ensures n < 10 <==> |r| == 1
    ensures 10 <= n < 100 <==> |r| == 2
  {
    if n < 10 then [DigitChar(n)] else NatToString(n / 10) + [DigitChar(n % 10)]
  }

  /** Reads a string of digits as a number (left to right, base ten). */
  function ParseNat(s: string): nat
    requires AllDigits(s)
  {
    if s == [] then 0 else ParseNat(s[..|s| - 1]) * 10 + DigitValue(s[|s| - 1])
  }

  /** Rendering and reading back are inverse: NatToString is injective. */
  lemma {:induction false} NatToStringRoundTrip(n: nat)
    ensures ParseNat(NatToString(n)) == n
  {
    if n >= 10 {
      var s := NatToString(n / 10);
      var t := s + [DigitChar(n % 10)];
      assert t[..|t| - 1] == s;
      NatToStringRoundTrip(n / 10);
    }
  }

  lemma NatToStringInjective(a: nat, b: nat)
    ensures NatToString(a) == NatToString(b) ==> a == b
  {
    NatToStringRoundTrip(a);
    NatToStringRoundTrip(b);
  }

  /** Distinct integers render as distinct strings. */
  lemma IntToStringInjective(a: int, b: int)
    ensures IntToString(a) == IntToString(b) ==> a == b
  {
    if a < 0 && b < 0 {
      NatToStringInjective(-a, -b);
    } else if a >= 0 && b >= 0 {
      NatToStringInjective(a, b);
    }
  }

  /** JavaScript's String(i) for an integer value. */
  function IntToString(i: int): (r: string)
    ensures |r| > 0
    ensures r[0] == '-' <==> i < 0
    ensures i >= 0 ==> r == NatToString(i)
    ensures i < 0 ==> r[1..] == NatToString(-i)
  {
    if i < 0 then "-" + NatToString(-i) else NatToString(i)
  }

  function Repeat(c: char, n: nat): (r: string)
    ensures |r| == n && forall i :: 0 <= i < n ==> r[i] == c
  {
    if n == 0 then [] else [c] + Repeat(c, n - 1)
  }

  /** String.prototype.padStart with a one-character pad string. */
  function PadStart(s: string, len: nat, c: char): (r: string)
    ensures |s| >= len ==> r == s
    ensures |s| < len ==> |r| == len
    ensures r[|r| - |s|..] == s
    ensures forall i :: 0 <= i < |r| - |s| ==> r[i] == c
  {
    if |s| >= len then s else Repeat(c, len - |s|) + s
  }

  /** The white space and line terminators that String.prototype.trim removes. */
  predicate IsWhite(c: char)
  {
    c == ' ' || c == '\t' || c == '\n' || c == '\r' || c == '\U{000B}' || c == '\U{000C}'
    || c == '\U{00A0}' || c == '\U{1680}' || ('\U{2000}' <= c <= '\U{200A}')
    || c == '\U{2028}' || c == '\U{2029}' || c == '\U{202F}' || c == '\U{205F}'
    || c == '\U{3000}' || c == '\U{FEFF}'
  }

  predicate AllWhite(s: string) { forall i :: 0 <= i < |s| ==> IsWhite(s[i]) }

  function LeadingWhite(s: string): (k: nat)
    ensures k <= |s| && AllWhite(s[..k])
    ensures k < |s| ==> !IsWhite(s[k])
  {
    if s == [] || !IsWhite(s[0]) then 0
    else
      var k := 1 + LeadingWhite(s[1..]);
      assert forall i :: 1 <= i < k ==> s[..k][i] == s[1..][..k - 1][i - 1];
      k
  }

  function TrailingWhite(s: string): (k: nat)
    ensures k <= |s| && AllWhite(s[|s| - k..])
    ensures k < |s| ==> !IsWhite(s[|s| - k - 1])
  {
    if s == [] || !IsWhite(s[|s| - 1]) then 0
    else
      var k := 1 + TrailingWhite(s[..|s| - 1]);
      assert forall i :: |s| - k <= i < |s| - 1 ==> s[i] == s[..|s| - 1][i];
      k
  }

  /** Where trim cuts: after the leading white space, and before the trailing
      white space of what is left. */
  function TrimStart(s: string): nat { LeadingWhite(s) }
  function TrimEnd(s: string): nat { |s| - TrailingWhite(s[LeadingWhite(s)..]) }

  lemma AllWhiteAppend(a: string, b: string)
    requires AllWhite(a) && AllWhite(b)
    ensures AllWhite(a + b)
  {
    forall n | 0 <= n < |a + b| ensures IsWhite((a + b)[n]) {
      if n < |a| { assert (a + b)[n] == a[n]; } else { assert (a + b)[n] == b[n - |a|]; }
    }
  }

  lemma TrimCuts(s: string)
    ensures TrimStart(s) <= TrimEnd(s) <= |s|
    ensures AllWhite(s[..TrimStart(s)]) && AllWhite(s[TrimEnd(s)..])
    ensures TrimStart(s) < TrimEnd(s) ==> !IsWhite(s[TrimStart(s)]) && !IsWhite(s[TrimEnd(s) - 1])
    ensures TrimStart(s) == TrimEnd(s) <==> AllWhite(s)
  {
    var i := LeadingWhite(s);
    var t := s[i..];
    var k := TrailingWhite(t);
    var j := |s| - k;
    assert s[j..] == t[|t| - k..];
    if i < j {
      assert s[i] == t[0];
      assert s[j - 1] == t[|t| - k - 1];
    }
    if i == j {
      assert t[|t| - k..] == t;
      AllWhiteAppend(s[..i], t);
      assert s[..i] + t == s;
    }
  }

  /** String.prototype.trim: the longest infix with no white space at either end. */
  function Trim(s: string): (r: string)
    ensures exists i, j :: 0 <= i <= j <= |s| && r == s[i..j] && AllWhite(s[..i]) && AllWhite(s[j..])
    ensures r != [] ==> !IsWhite(r[0]) && !IsWhite(r[|r| - 1])
    ensures r == [] <==> AllWhite(s)
  {
    TrimCuts(s);
    s[TrimStart(s)..TrimEnd(s)]
  }

  /** Trimming a string with no white space at either end gives it back. */
  lemma TrimUntouched(s: string)
    requires s != [] ==> !IsWhite(s[0]) && !IsWhite(s[|s| - 1])
    ensures Trim(s) == s
  {
  }

  /** Trimming one leading space off a string with no white space at either
      end gives that string. */
  lemma TrimLeadingSpace(s: string)
    requires s != [] && !IsWhite(s[0]) && !IsWhite(s[|s| - 1])
    ensures Trim(" " + s) == s
  {
    var t := " " + s;
    assert t[1..] == s;
    assert LeadingWhite(s) == 0;
    assert LeadingWhite(t) == 1;
    assert TrailingWhite(s) == 0;
  }

  /** Trimming one trailing space off a string with no white space at either
      end gives that string. */
  lemma TrimTrailingSpace(s: string)
    requires s != [] && !IsWhite(s[0]) && !IsWhite(s[|s| - 1])
    ensures Trim(s + " ") == s
  {
    var t := s + " ";
    assert t[0] == s[0] && t[0..] == t;
    assert LeadingWhite(t) == 0;
    assert t[..|t| - 1] == s;
    assert TrailingWhite(s) == 0;
    assert TrailingWhite(t) == 1;
  }

  /** ASCII and Latin-1 upper-case letters to lower case. */
  function LowerChar(c: char): (d: char)
    ensures ('A' <= c <= 'Z') ==> d as int == c as int + 32
    ensures !('A' <= c <= 'Z') && !('\U{00C0}' <= c <= '\U{00DE}' && c != '\U{00D7}') ==> d == c
  {
    if ('A' <= c <= 'Z') || ('\U{00C0}' <= c <= '\U{00DE}' && c != '\U{00D7}') then
      (c as int + 32) as char
    else c
  }

  function ToLower(s: string): (r: string)
    ensures |r| == |s| && forall i :: 0 <= i < |s| ==> r[i] == LowerChar(s[i])
  {
    seq(|s|, i requires 0 <= i < |s| => LowerChar(s[i]))
  }

  predicate StartsWith(s: string, prefix: string)
  {
    |prefix| <= |s| && s[..|prefix|] == prefix
  }

  predicate OccursAt(s: string, t: string, i: int)
  {
    0 <= i && i + |t| <= |s| && s[i..i + |t|] == t
  }

  /** An occurrence of t in s after position 0 is an occurrence in s[1..]. */
  lemma IncludesStep(s: string, t: string)
    requires |t| <= |s| && s[..|t|] != t
    ensures (exists i :: OccursAt(s, t, i)) <==> exists i :: OccursAt(s[1..], t, i)
  {
    assert !OccursAt(s, t, 0) by { assert s[0..|t|] == s[..|t|]; }
    forall i | OccursAt(s, t, i) ensures OccursAt(s[1..], t, i - 1) {
      assert s[1..][i - 1..i - 1 + |t|] == s[i..i + |t|];
    }
    forall i | OccursAt(s[1..], t, i) ensures OccursAt(s, t, i + 1) {
      assert s[1..][i..i + |t|] == s[i + 1..i + 1 + |t|];
    }
  }

  /** String.prototype.includes: whether t occurs in s at some position. */
  function Includes(s: string, t: string): (r: bool)
    ensures r <==> exists i :: OccursAt(s, t, i)
    decreases |s|
  {
    if |t| > |s| then false
    else if s[..|t|] == t then
      assert OccursAt(s, t, 0);
      true
    else
      IncludesStep(s, t);
      Includes(s[1..], t)
  }
}
