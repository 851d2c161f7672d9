/** The string operations the screens apply to what the user types and to
    what they display: decimal digit strings (`replace(/[^0-9]/g, '')`,
    `parseInt`, `toString`), `padStart` and `padEnd` to two characters,
    case folding, `includes` and `trim`. */
module Text {

  predicate IsDigit(c: char) {
    '0' <= c <= '9'
  }

  predicate IsDigits(s: string) {
    forall i :: 0 <= i < |s| ==> IsDigit(s[i])
  }

  function DigitValue(c: char): nat
    requires IsDigit(c)
  {
    c as int - '0' as int
  }

  function DigitChar(d: nat): (c: char)
    requires d < 10
    ensures IsDigit(c) && DigitValue(c) == d
  {
    (d + '0' as int) as char
  }

  /** `s.replace(/[^0-9]/g, '')`: the decimal digits of `s`, in order. */
  function DigitsOnly(s: string): (r: string)
    ensures IsDigits(r) && |r| <= |s|
    ensures IsDigits(s) ==> r == s
    ensures forall i :: 0 <= i < |s| && IsDigit(s[i]) ==> s[i] in r
    ensures forall i :: 0 <= i < |r| ==> r[i] in s
  {
    if s == [] then []
    else if IsDigit(s[0]) then [s[0]] + DigitsOnly(s[1..])
    else DigitsOnly(s[1..])
  }

  /** A character that is not a decimal digit is dropped. */
  lemma DigitsOnlyDropsNonDigit(c: char)
    requires !IsDigit(c)
    ensures DigitsOnly([c]) == []
  {
  }

  /** The filter keeps the digits in order, repeats included: the digits
      of `a + b` are those of `a` followed by those of `b`. */
  lemma {:induction false} DigitsOnlyAppend(a: string, b: string)
    ensures DigitsOnly(a + b) == DigitsOnly(a) + DigitsOnly(b)
  {
    if a == [] {
      assert a + b == b;
    } else {
      assert (a + b)[0] == a[0] && (a + b)[1..] == a[1..] + b;
      DigitsOnlyAppend(a[1..], b);
    }
  }

  /** `parseInt` of a string of decimal digits, most significant digit
      first. The screens only parse the empty string behind a
      `value ? parseInt(value) : 0` guard, which is the 0 it reads as here. */
  function ParseNat(s: string): nat
    requires IsDigits(s)
  {
    if s == [] then 0 else ParseNat(s[..|s| - 1]) * 10 + DigitValue(s[|s| - 1])
  }

  /** `n.toString()` for a non-negative integer. */
  function Show(n: nat): (s: string)
    ensures IsDigits(s) && 1 <= |s|
    ensures ParseNat(s) == n
    ensures |s| == 1 <==> n < 10
    ensures n < 100 ==> |s| <= 2
    ensures s[0] == '0' ==> n == 0
  {
    if n < 10 then [DigitChar(n)]
    else
      var s := Show(n / 10) + [DigitChar(n % 10)];
      assert s[..|s| - 1] == Show(n / 10);
      s
  }

  /** A leading zero does not change what `parseInt` reads. */
  lemma {:induction false} ParseLeadingZero(s: string)
    requires IsDigits(s)
    ensures IsDigits(['0'] + s) && ParseNat(['0'] + s) == ParseNat(s)
  {
    var z := ['0'] + s;
    if s != [] {
      assert z[..|z| - 1] == ['0'] + s[..|s| - 1];
      ParseLeadingZero(s[..|s| - 1]);
    }
  }

  /** `s.padStart(2, '0')`. */
  function PadStart2(s: string): (r: string)
    ensures |r| == if |s| < 2 then 2 else |s|
    ensures IsDigits(s) ==> IsDigits(r) && ParseNat(r) == ParseNat(s)
  {
    if |s| >= 2 then s
    else if |s| == 1 then
      (if IsDigits(s) then ParseLeadingZero(s); ['0'] + s else ['0'] + s)
    else "00"
  }

  /** `s.padEnd(2, '0')`: a one-digit string reads as ten times its value. */
  function PadEnd2(s: string): (r: string)
    ensures |r| == if |s| < 2 then 2 else |s|
    ensures IsDigits(s) ==> IsDigits(r)
    ensures IsDigits(s) && |s| == 1 ==> ParseNat(r) == 10 * ParseNat(s)
    ensures IsDigits(s) && |s| != 1 ==> ParseNat(r) == ParseNat(s)
    decreases 2 - |s|
  {
    if |s| >= 2 then s
    else
      var t := s + ['0'];
      assert t[..|t| - 1] == s;
      PadEnd2(t)
  }

  /** `s.slice(0, n)`: the first `n` characters, or all of a shorter
      string. */
  function Take(s: string, n: nat): (r: string)
    ensures |r| <= n && r <= s
    ensures |s| <= n ==> r == s
    ensures |r| == if |s| < n then |s| else n
  {
    if |s| <= n then s else s[..n]
  }

  function LowerChar(c: char): char {
    if IsUpper(c) then (c as int + 32) as char else c
  }

  predicate IsUpper(c: char) {
    'A' <= c <= 'Z'
  }

  /** `s.toLowerCase()`, folding the ASCII letters: no capital is left, a
      capital becomes the small letter 32 code points above it, and every
      other character is kept. */
  function Lower(s: string): (r: string)
    ensures |r| == |s|
    ensures forall i :: 0 <= i < |s| ==>
              !IsUpper(r[i]) && (if IsUpper(s[i]) then r[i] as int == s[i] as int + 32 else r[i] == s[i])
  {
    seq(|s|, i requires 0 <= i < |s| => LowerChar(s[i]))
  }

  /** Two strings that differ at most in the letter case of ASCII letters:
      at each position the characters are equal, or one is a capital and the
      other the small letter 32 code points above it. */
  predicate SameUpToCase(a: string, b: string) {
    && |a| == |b|
    && forall i :: 0 <= i < |a| ==>
         || a[i] == b[i]
         || (IsUpper(a[i]) && b[i] as int == a[i] as int + 32)
         || (IsUpper(b[i]) && a[i] as int == b[i] as int + 32)
  }

  /** Strings that differ only in letter case fold to the same string. */
  lemma SameUpToCaseLower(a: string, b: string)
    requires SameUpToCase(a, b)
    ensures Lower(a) == Lower(b)
  {
    forall i | 0 <= i < |a| ensures Lower(a)[i] == Lower(b)[i] {
    }
  }

  /** Case changes touch letters only, never whitespace. */
  lemma SameUpToCaseWhitespace(a: string, b: string)
    requires SameUpToCase(a, b)
    ensures forall i :: 0 <= i < |a| ==> IsWhitespace(a[i]) == IsWhitespace(b[i])
  {
  }

  /** `hay.includes(needle)`: `needle` starts at some position of `hay`. */
  predicate Contains(hay: string, needle: string)
    decreases |hay|
  {
    needle <= hay || (hay != [] && Contains(hay[1..], needle))
  }

  /** `needle` occurs in `hay` starting at position `i`. */
  predicate OccursAt(hay: string, needle: string, i: int) {
    0 <= i <= |hay| - |needle| && hay[i..i + |needle|] == needle
  }

  /** `Contains` holds exactly when the needle occurs at some position. */
  lemma ContainsIffOccurs(hay: string, needle: string)
    ensures Contains(hay, needle) <==> exists i :: OccursAt(hay, needle, i)
  {
    if Contains(hay, needle) {
      var i := ContainsAt(hay, needle);
    }
    if i :| OccursAt(hay, needle, i) {
      OccursContains(hay, needle, i);
    }
  }

  /** Where `Contains` holds, a position at which the needle occurs. */
  lemma {:induction false} ContainsAt(hay: string, needle: string) returns (i: int)
    requires Contains(hay, needle)
    ensures OccursAt(hay, needle, i)
    decreases |hay|
  {
    if needle <= hay {
      i := 0;
    } else {
      var j := ContainsAt(hay[1..], needle);
      assert hay[1..][j..j + |needle|] == hay[j + 1..j + 1 + |needle|];
      i := j + 1;
    }
  }

  /** An occurrence at any position is found by `Contains`. */
  lemma {:induction false} OccursContains(hay: string, needle: string, i: int)
    requires OccursAt(hay, needle, i)
    ensures Contains(hay, needle)
    decreases i
  {
    if i == 0 {
      assert needle <= hay;
    } else {
      assert hay[1..][i - 1..i - 1 + |needle|] == hay[i..i + |needle|];
      OccursContains(hay[1..], needle, i - 1);
    }
  }

  /** Case folding keeps every match: whatever `includes` finds, it still
      finds once both sides are lowercased. */
  lemma {:induction false} LowerKeepsContains(hay: string, needle: string)
    requires Contains(hay, needle)
    ensures Contains(Lower(hay), Lower(needle))
    decreases |hay|
  {
    if needle <= hay {
      assert Lower(needle) <= Lower(hay);
    } else {
      LowerKeepsContains(hay[1..], needle);
      assert Lower(hay)[1..] == Lower(hay[1..]);
    }
  }

  /** The code points ECMAScript's `String.prototype.trim` removes: its
      WhiteSpace and LineTerminator characters. */
  predicate IsWhitespace(c: char) {
    || c == '\t' || c == '\n' || c == '\U{B}' || c == '\U{C}' || c == '\r' || c == ' '
    || c == '\U{A0}' || c == '\U{1680}' || ('\U{2000}' <= c <= '\U{200A}')
    || c == '\U{2028}' || c == '\U{2029}' || c == '\U{202F}' || c == '\U{205F}'
    || c == '\U{3000}' || c == '\U{FEFF}'
  }

  function TrimStart(s: string): (r: string)
    ensures |r| <= |s| && r == s[|s| - |r|..]
    decreases |s|
  {
    if s != [] && IsWhitespace(s[0]) then TrimStart(s[1..]) else s
  }

  function TrimEnd(s: string): (r: string)
    ensures r <= s
    decreases |s|
  {
    if s != [] && IsWhitespace(s[|s| - 1]) then TrimEnd(s[..|s| - 1]) else s
  }

  /** `s.trim()`. */
  function Trim(s: string): string {
    TrimEnd(TrimStart(s))
  }

  /** `s.trim()` is empty exactly when every character of `s` is whitespace. */
  lemma {:induction false} TrimEmptyIffBlank(s: string)
    ensures Trim(s) == [] <==> forall i :: 0 <= i < |s| ==> IsWhitespace(s[i])
  {
    TrimStartEmptyIffBlank(s);
    var t := TrimStart(s);
    if t != [] {
      assert !IsWhitespace(t[0]) by { TrimStartFront(s); }
      TrimEndKeepsFront(t);
    }
  }

  lemma {:induction false} TrimStartEmptyIffBlank(s: string)
    ensures TrimStart(s) == [] <==> forall i :: 0 <= i < |s| ==> IsWhitespace(s[i])
    decreases |s|
  {
    if s != [] && IsWhitespace(s[0]) {
      TrimStartEmptyIffBlank(s[1..]);
      assert forall i :: 1 <= i < |s| ==> s[i] == s[1..][i - 1];
    }
  }

  lemma {:induction false} TrimStartFront(s: string)
    requires TrimStart(s) != []
    ensures !IsWhitespace(TrimStart(s)[0])
    decreases |s|
  {
    if s != [] && IsWhitespace(s[0]) {
      TrimStartFront(s[1..]);
    }
  }

  lemma {:induction false} TrimEndKeepsFront(s: string)
    requires s != [] && !IsWhitespace(s[0])
    ensures TrimEnd(s) != []
    decreases |s|
  {
    if IsWhitespace(s[|s| - 1]) {
      assert |s| > 1;
      TrimEndKeepsFront(s[..|s| - 1]);
    }
  }
}
