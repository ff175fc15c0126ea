// String primitives of the two host languages, written out the way Python
// and JavaScript define them: `str(n)`, `s or default`, `str.lower()`,
// `needle in haystack`, `str.lstrip(c)`, `str.split()[0]` (Python) and
// `String.prototype.trim()` (JavaScript).
module Text {
  import opened Wrappers

  // ---------------------------------------------------------------------
  // Python truthiness of strings: `s or fallback`
  // ---------------------------------------------------------------------

  /** Python `s or fallback` for strings: the empty string is falsy. */
  function Or(s: string, fallback: string): (r: string)
    ensures s != "" ==> r == s
    ensures s == "" ==> r == fallback
  {
    if s != "" then s else fallback
  }

  // ---------------------------------------------------------------------
  // Decimal rendering of integers (Python `str(n)`, f-string `{n}`)
  // ---------------------------------------------------------------------

  predicate IsDigit(c: char)
  {
    '0' <= c <= '9'
  }

  predicate AllDigits(s: string)
  {
    forall i :: 0 <= i < |s| ==> IsDigit(s[i])
  }

  function DigitChar(d: nat): (c: char)
    requires d < 10
    ensures IsDigit(c) && c as int - '0' as int == d
  {
    (d + '0' as int) as char
  }

  /** `str(n)` for a natural number: shortest decimal form, no sign, no leading zero. */
  function NatToString(n: nat): string
    decreases n
  {
    if n < 10 then [DigitChar(n)] else NatToString(n / 10) + [DigitChar(n % 10)]
  }

  /** The form is non-empty, all digits, and without a leading zero. */
  lemma {:induction false} NatToStringDigits(n: nat)
    ensures var s := NatToString(n); |s| >= 1 && AllDigits(s) && (|s| > 1 ==> s[0] != '0')
    decreases n
  {
    if n >= 10 {
      NatToStringDigits(n / 10);
    }
  }

  /** The value of a string of decimal digits (reference reading of `int(s)`). */
  function DecimalValue(s: string): nat
    requires AllDigits(s)
    decreases |s|
  {
    if s == [] then 0 else DecimalValue(s[..|s| - 1]) * 10 + (s[|s| - 1] as int - '0' as int)
  }

  /** Reading back what `NatToString` printed gives the number again. */
  lemma {:induction false} NatToStringRoundTrip(n: nat)
    ensures AllDigits(NatToString(n)) && DecimalValue(NatToString(n)) == n
    decreases n
  {
    NatToStringDigits(n);
    if n >= 10 {
      NatToStringRoundTrip(n / 10);
      var s := NatToString(n);
      assert s[..|s| - 1] == NatToString(n / 10);
    }
  }

  lemma {:induction false} NatToStringInjective(a: nat, b: nat)
    requires NatToString(a) == NatToString(b)
    ensures a == b
  {
    NatToStringRoundTrip(a);
    NatToStringRoundTrip(b);
  }

  /** `str(i)` for any integer: a minus sign before the digits of a negative value. */
  function IntToString(i: int): (s: string)
    ensures i >= 0 ==> s == NatToString(i)
    ensures i < 0 ==> s == "-" + NatToString(-i)
  {
    if i < 0 then "-" + NatToString(-i) else NatToString(i)
  }

  // ---------------------------------------------------------------------
  // Lower case (Python `str.lower()` over ASCII and Latin-1 capitals)
  // ---------------------------------------------------------------------

  /** Upper-case letters this model folds: A-Z and the Latin-1 capitals À..Þ except ×. */
  predicate IsUpper(c: char)
  {
    ('A' <= c <= 'Z') || ('À' <= c <= 'Þ' && c != '×')
  }

  function LowerChar(c: char): (l: char)
    ensures !IsUpper(l)
    ensures !IsUpper(c) ==> l == c
  {
    if IsUpper(c) then (c as int + 32) as char else c
  }

  function Lower(s: string): (r: string)
    ensures |r| == |s|
    ensures forall i :: 0 <= i < |r| ==> !IsUpper(r[i])
    ensures forall i :: 0 <= i < |s| && !IsUpper(s[i]) ==> r[i] == s[i]
    ensures forall i :: 0 <= i < |s| ==> r[i] == LowerChar(s[i])
  {
    seq(|s|, i requires 0 <= i < |s| => LowerChar(s[i]))
  }

  /** Lower-casing twice is lower-casing once. */
  lemma {:induction false} LowerIdempotent(s: string)
    ensures Lower(Lower(s)) == Lower(s)
  {
  }

  // ---------------------------------------------------------------------
  // Substring test (Python `needle in haystack`)
  // ---------------------------------------------------------------------

  predicate OccursAt(s: string, p: string, k: int)
  {
    0 <= k && k + |p| <= |s| && s[k..k + |p|] == p
  }

  predicate Contains(s: string, p: string)
  {
    exists k :: 0 <= k <= |s| - |p| && OccursAt(s, p, k)
  }

  /** A needle with a character the haystack lacks does not occur in it. */
  lemma {:induction false} MissingCharNotContained(s: string, p: string, c: char)
    requires c in p && c !in s
    ensures !Contains(s, p)
  {
    var j :| 0 <= j < |p| && p[j] == c;
    forall k | 0 <= k <= |s| - |p|
      ensures !OccursAt(s, p, k)
    {
      assert s[k..k + |p|][j] == s[k + j];
    }
  }

  // ---------------------------------------------------------------------
  // Python `str.lstrip(c)`
  // ---------------------------------------------------------------------

  /** `s.lstrip(c)`: every leading occurrence of `c` removed. */
  function LStrip(s: string, c: char): (r: string)
    ensures |r| <= |s| && r == s[|s| - |r|..]
    ensures r == "" || r[0] != c
    ensures forall i :: 0 <= i < |s| - |r| ==> s[i] == c
    decreases |s|
  {
    if s != [] && s[0] == c then LStrip(s[1..], c) else s
  }

  lemma {:induction false} LStripIdempotent(s: string, c: char)
    ensures LStrip(LStrip(s, c), c) == LStrip(s, c)
  {
  }

  // ---------------------------------------------------------------------
  // Python whitespace (`str.isspace()`, used by `str.split()`)
  // ---------------------------------------------------------------------

  predicate IsPySpace(c: char)
  {
    ('\U{0009}' <= c <= '\U{000D}') || ('\U{001C}' <= c <= '\U{001F}') || c == ' ' || c == '\U{0085}'
    || c == '\U{00A0}' || c == '\U{1680}' || ('\U{2000}' <= c <= '\U{200A}') || c == '\U{2028}'
    || c == '\U{2029}' || c == '\U{202F}' || c == '\U{205F}' || c == '\U{3000}'
  }

  /**
   * The blanks `int()` skips around a literal: the ASCII ones are only tab,
   * line feed, vertical tab, form feed, carriage return and space, so the
   * separators U+001C..U+001F that `str.isspace()` accepts are not skipped;
   * every other Unicode whitespace character is.
   */
  predicate IsIntSpace(c: char)
  {
    ('\U{0009}' <= c <= '\U{000D}') || c == ' ' || c == '\U{0085}'
    || c == '\U{00A0}' || c == '\U{1680}' || ('\U{2000}' <= c <= '\U{200A}') || c == '\U{2028}'
    || c == '\U{2029}' || c == '\U{202F}' || c == '\U{205F}' || c == '\U{3000}'
  }

  /** `int()` skips exactly the `str.isspace()` characters other than U+001C..U+001F. */
  lemma {:induction false} IntSpaceIsPySpace(c: char)
    ensures IsIntSpace(c) <==> IsPySpace(c) && !('\U{001C}' <= c <= '\U{001F}')
  {
  }

  /** The longest prefix free of whitespace. */
  function TakeWord(s: string, isSpace: char -> bool): (w: string)
    ensures |w| <= |s| && w == s[..|w|]
    ensures forall i :: 0 <= i < |w| ==> !isSpace(w[i])
    ensures |w| < |s| ==> isSpace(s[|w|])
    decreases |s|
  {
    if s == [] || isSpace(s[0]) then [] else [s[0]] + TakeWord(s[1..], isSpace)
  }

  /** The first whitespace-separated word, None when there is none. */
  function FirstWord(s: string, isSpace: char -> bool): Option<string>
  {
    var t := TrimStart(s, isSpace);
    if t == [] then None else Some(TakeWord(t, isSpace))
  }

  /** There is no word exactly when the string is all whitespace. */
  lemma {:induction false} FirstWordNone(s: string, isSpace: char -> bool)
    ensures FirstWord(s, isSpace).None? <==> (forall i :: 0 <= i < |s| ==> isSpace(s[i]))
  {
    var t := TrimStart(s, isSpace);
    if t != [] {
      assert s[|s| - |t|] == t[0];
    }
  }

  /**
   * A word is non-empty and whitespace-free, is preceded only by whitespace,
   * and ends at whitespace or at the end of the string.
   */
  lemma {:induction false} FirstWordSome(s: string, isSpace: char -> bool)
    requires FirstWord(s, isSpace).Some?
    ensures var w := FirstWord(s, isSpace).value;
      var k := |s| - |TrimStart(s, isSpace)|;
      w != "" && (forall i :: 0 <= i < k ==> isSpace(s[i])) && k + |w| <= |s| && s[k..k + |w|] == w
      && (forall i :: 0 <= i < |w| ==> !isSpace(w[i])) && (k + |w| == |s| || isSpace(s[k + |w|]))
  {
    var t := TrimStart(s, isSpace);
    var w := TakeWord(t, isSpace);
    var k := |s| - |t|;
    assert w != [];
    assert s[k..k + |w|] == t[..|w|];
    if k + |w| < |s| {
      assert s[k + |w|] == t[|w|];
    }
  }

  /** A string that starts with a word followed by whitespace (or nothing) has that word first. */
  lemma {:induction false} FirstWordOfWordThenSpace(w: string, rest: string, isSpace: char -> bool)
    requires w != [] && forall i :: 0 <= i < |w| ==> !isSpace(w[i])
    requires rest == [] || isSpace(rest[0])
    ensures FirstWord(w + rest, isSpace) == Some(w)
  {
    assert LeadingSpaces(w + rest, isSpace) == 0 by {
      assert (w + rest)[0] == w[0];
    }
    assert TrimStart(w + rest, isSpace) == w + rest;
    TakeWordOfWordThenSpace(w, rest, isSpace);
  }

  lemma {:induction false} TakeWordOfWordThenSpace(w: string, rest: string, isSpace: char -> bool)
    requires forall i :: 0 <= i < |w| ==> !isSpace(w[i])
    requires rest == [] || isSpace(rest[0])
    ensures TakeWord(w + rest, isSpace) == w
    decreases |w|
  {
    if w != [] {
      assert (w + rest)[0] == w[0];
      assert (w + rest)[1..] == w[1..] + rest;
      TakeWordOfWordThenSpace(w[1..], rest, isSpace);
    }
  }

  /** `s.split()[0]`, or None where Python raises IndexError (no token at all). */
  function FirstToken(s: string): Option<string>
  {
    FirstWord(s, IsPySpace)
  }

  // ---------------------------------------------------------------------
  // JavaScript `String.prototype.trim()`
  // ---------------------------------------------------------------------

  /** ECMAScript WhiteSpace and LineTerminator code points. */
  predicate IsJsSpace(c: char)
  {
    c == '\U{0009}' || c == '\U{000B}' || c == '\U{000C}' || c == ' ' || c == '\U{00A0}' || c == '\U{FEFF}'
    || c == '\U{1680}' || ('\U{2000}' <= c <= '\U{200A}') || c == '\U{202F}' || c == '\U{205F}' || c == '\U{3000}'
    || c == '\U{000A}' || c == '\U{000D}' || c == '\U{2028}' || c == '\U{2029}'
  }

  /** The number of whitespace characters at the start of `s`. */
  function LeadingSpaces(s: string, isSpace: char -> bool): (n: nat)
    ensures n <= |s| && (n == |s| || !isSpace(s[n]))
    ensures forall i :: 0 <= i < n ==> isSpace(s[i])
    decreases |s|
  {
    if s != [] && isSpace(s[0]) then 1 + LeadingSpaces(s[1..], isSpace) else 0
  }

  /** The number of whitespace characters at the end of `s`. */
  function TrailingSpaces(s: string, isSpace: char -> bool): (n: nat)
    ensures n <= |s| && (n == |s| || !isSpace(s[|s| - n - 1]))
    ensures forall i :: |s| - n <= i < |s| ==> isSpace(s[i])
    decreases |s|
  {
    if s != [] && isSpace(s[|s| - 1]) then 1 + TrailingSpaces(s[..|s| - 1], isSpace) else 0
  }

  function TrimStart(s: string, isSpace: char -> bool): string
  {
    s[LeadingSpaces(s, isSpace)..]
  }

  function TrimEnd(s: string, isSpace: char -> bool): string
  {
    s[..|s| - TrailingSpaces(s, isSpace)]
  }

  /** The whitespace `int()` ignores on both sides of its argument. */
  function IntStrip(s: string): string
  {
    TrimEnd(TrimStart(s, IsIntSpace), IsIntSpace)
  }

  /** A string with no whitespace at either end trims to itself. */
  lemma {:induction false} TrimUnspaced(s: string, isSpace: char -> bool)
    requires s == "" || (!isSpace(s[0]) && !isSpace(s[|s| - 1]))
    ensures TrimEnd(TrimStart(s, isSpace), isSpace) == s
  {
  }

  /** JavaScript `s.trim()`. */
  function JsTrim(s: string): string
  {
    TrimEnd(TrimStart(s, IsJsSpace), IsJsSpace)
  }

  /**
   * Trimming keeps the contiguous middle part of the string between its
   * leading and its trailing whitespace, and removes nothing else.
   */
  lemma {:induction false} TrimMeaning(s: string, isSpace: char -> bool)
    ensures var a := LeadingSpaces(s, isSpace);
      var b := |s| - TrailingSpaces(s[a..], isSpace);
      a <= b <= |s| && TrimEnd(TrimStart(s, isSpace), isSpace) == s[a..b]
      && (forall i :: 0 <= i < a ==> isSpace(s[i]))
      && (forall i :: b <= i < |s| ==> isSpace(s[i]))
  {
    var a := LeadingSpaces(s, isSpace);
    var t := s[a..];
    var b := |s| - TrailingSpaces(t, isSpace);
    assert t[..|t| - TrailingSpaces(t, isSpace)] == s[a..b];
    forall i | b <= i < |s| ensures isSpace(s[i]) {
      assert s[i] == t[i - a];
    }
  }

  /** Trimming leaves no whitespace at either end. */
  lemma {:induction false} TrimmedEnds(s: string, isSpace: char -> bool)
    ensures var r := TrimEnd(TrimStart(s, isSpace), isSpace);
      r == "" || (!isSpace(r[0]) && !isSpace(r[|r| - 1]))
  {
    var t := TrimStart(s, isSpace);
    var r := TrimEnd(t, isSpace);
    if r != "" {
      assert r[0] == t[0];
    }
  }

  /** A string trims to empty exactly when it is all whitespace. */
  lemma {:induction false} TrimEmpty(s: string, isSpace: char -> bool)
    ensures TrimEnd(TrimStart(s, isSpace), isSpace) == "" <==> (forall i :: 0 <= i < |s| ==> isSpace(s[i]))
  {
    var t := TrimStart(s, isSpace);
    if t != "" {
      assert TrimEnd(t, isSpace) != "";
      assert s[|s| - |t|] == t[0];
    }
  }

  /** Trimming twice is trimming once. */
  lemma {:induction false} TrimIdempotent(s: string, isSpace: char -> bool)
    ensures var r := TrimEnd(TrimStart(s, isSpace), isSpace);
      TrimEnd(TrimStart(r, isSpace), isSpace) == r
  {
    TrimmedEnds(s, isSpace);
    var r := TrimEnd(TrimStart(s, isSpace), isSpace);
    if r != "" {
      assert TrimStart(r, isSpace) == r;
      assert TrimEnd(r, isSpace) == r;
    }
  }
}
