/**
 * The string operations the screens rely on: `String.prototype.trim`, `includes`,
 * `Number.prototype.toString()` for integers, a character-wise `toLowerCase`, and `length`,
 * which JavaScript counts in UTF-16 code units.
 */
module Text {

  /** The characters `String.prototype.trim` removes: ECMAScript WhiteSpace
      (tab, vertical tab, form feed, space, no-break space, byte order mark and the
      Unicode space separators) and LineTerminator (LF, CR, U+2028, U+2029). */
  predicate IsWhitespace(c: char)
  {
    var n := c as int;
    n == 0x09 || n == 0x0A || n == 0x0B || n == 0x0C || n == 0x0D || n == 0x20
    || n == 0xA0 || n == 0x1680 || (0x2000 <= n <= 0x200A) || n == 0x2028 || n == 0x2029
    || n == 0x202F || n == 0x205F || n == 0x3000 || n == 0xFEFF
  }

  /** Every character of `s` is whitespace (vacuously true of the empty string). */
  predicate AllWhitespace(s: string)
  {
    forall i :: 0 <= i < |s| ==> IsWhitespace(s[i])
  }

  /** `s` without its leading whitespace. */
  function TrimStart(s: string): (r: string)
    ensures |r| <= |s| && r == s[|s| - |r|..]
    ensures r == [] <==> AllWhitespace(s)
    ensures r != [] ==> !IsWhitespace(r[0])
  {
    if s != [] && IsWhitespace(s[0]) then TrimStart(s[1..]) else s
  }

  /** `s` without its trailing whitespace. */
  function TrimEnd(s: string): (r: string)
    ensures |r| <= |s| && r == s[..|r|]
    ensures r == [] <==> AllWhitespace(s)
  {
    if s != [] && IsWhitespace(s[|s| - 1]) then TrimEnd(s[..|s| - 1]) else s
  }

  /** `s.trim()`. */
  function Trim(s: string): (r: string)
    ensures r == [] <==> AllWhitespace(s)
  {
    TrimEnd(TrimStart(s))
  }

  /** `!s.trim()`: the string is empty once trimmed, i.e. holds only whitespace. */
  predicate IsBlank(s: string)
  {
    Trim(s) == []
  }

  /** `s.includes(q)`: `q` occurs in `s` at some position. */
  predicate IsSubstring(q: string, s: string)
  {
    q <= s || (s != [] && IsSubstring(q, s[1..]))
  }

  /** `q` occurs in `s` starting at index `k`. */
  predicate OccursAt(q: string, s: string, k: int)
  {
    0 <= k && k + |q| <= |s| && s[k..k + |q|] == q
  }

  /** An occurrence at index `k` makes `q` a substring. */
  lemma {:induction false} OccurrenceIsSubstring(q: string, s: string, k: int)
    requires OccursAt(q, s, k)
    ensures IsSubstring(q, s)
    decreases k
  {
    if k == 0 {
      assert s[..|q|] == s[0..|q|];
    } else {
      assert s[1..][k - 1..k - 1 + |q|] == s[k..k + |q|];
      OccurrenceIsSubstring(q, s[1..], k - 1);
    }
  }

  /** A substring occurs at some index. */
  lemma {:induction false} SubstringOccurs(q: string, s: string) returns (k: int)
    requires IsSubstring(q, s)
    ensures OccursAt(q, s, k)
  {
    if q <= s {
      k := 0;
      assert s[0..|q|] == q;
    } else {
      var j := SubstringOccurs(q, s[1..]);
      assert s[1..][j..j + |q|] == s[j + 1..j + 1 + |q|];
      k := j + 1;
    }
  }

  /** `IsSubstring` is exactly the occurrence of `q` as a contiguous slice of `s`. */
  lemma IsSubstringIffOccurs(q: string, s: string)
    ensures IsSubstring(q, s) <==> exists k :: OccursAt(q, s, k)
  {
    if IsSubstring(q, s) {
      var k := SubstringOccurs(q, s);
    }
    forall k | OccursAt(q, s, k)
      ensures IsSubstring(q, s)
    {
      OccurrenceIsSubstring(q, s, k);
    }
  }

  /** The decimal digit character for `d`. */
  function DigitChar(d: nat): char
    requires d < 10
  {
    "0123456789"[d]
  }

  /** The decimal digits of `n`, most significant first, without leading zeros. */
  function Digits(n: nat): (r: string)
    ensures |r| >= 1
    ensures forall i :: 0 <= i < |r| ==> '0' <= r[i] <= '9'
    ensures n > 0 ==> r[0] != '0'
  {
    if n < 10 then [DigitChar(n)] else Digits(n / 10) + [DigitChar(n % 10)]
  }

  /** `n.toString()` for an integer `n`. */
  function DecimalString(n: int): string
  {
    if n < 0 then "-" + Digits(-n) else Digits(n)
  }

  /** The value of a string of decimal digits (the inverse of `Digits`). */
  function ParseDigits(s: string): int
  {
    if s == [] then 0 else 10 * ParseDigits(s[..|s| - 1]) + (s[|s| - 1] as int - '0' as int)
  }

  /** Reading back the digits `n.toString()` writes gives `n`. */
  lemma {:induction false} ParseDigitsRoundTrip(n: nat)
    ensures ParseDigits(Digits(n)) == n
  {
    if n >= 10 {
      var d := Digits(n / 10) + [DigitChar(n % 10)];
      assert d[..|d| - 1] == Digits(n / 10);
      ParseDigitsRoundTrip(n / 10);
    }
  }

  /** The UTF-16 code units a character takes: a surrogate pair above U+FFFF, one unit
      otherwise. */
  function Utf16Units(c: char): nat
  {
    if c as int > 0xFFFF then 2 else 1
  }

  /** `s.length`: the number of UTF-16 code units, which exceeds the number of characters by
      one for every character beyond the Basic Multilingual Plane. */
  function Utf16Length(s: string): (n: nat)
    ensures |s| <= n <= 2 * |s|
    ensures (forall i :: 0 <= i < |s| ==> s[i] as int <= 0xFFFF) ==> n == |s|
    ensures (forall i :: 0 <= i < |s| ==> s[i] as int > 0xFFFF) ==> n == 2 * |s|
    ensures (exists i :: 0 <= i < |s| && s[i] as int > 0xFFFF) ==> n > |s|
  {
    if s == [] then 0
    else
      var n := Utf16Units(s[0]) + Utf16Length(s[1..]);
      assert forall i :: 0 < i < |s| ==> s[i] == s[1..][i - 1];
      n
  }

  /** `s.toLowerCase()`, given the character map the platform applies. */
  function Lowered(s: string, lowerChar: char -> char): (r: string)
    ensures |r| == |s|
  {
    seq(|s|, i requires 0 <= i < |s| => lowerChar(s[i]))
  }
}
