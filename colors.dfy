// `hex_to_rgb`: strip every leading '#', then read the slices [0:2], [2:4]
// and [4:6] with Python's `int(slice, 16)` and build a colour from the three
// values. The colour constructor of the word-processing library refuses a
// component outside 0..255; `int` refuses a slice that is not a hexadecimal
// literal. Either refusal is an exception, modelled as None.
module Colors {
  import opened Wrappers
  import opened Text
  import opened Document

  predicate IsHexDigit(c: char)
  {
    ('0' <= c <= '9') || ('a' <= c <= 'f') || ('A' <= c <= 'F')
  }

  function HexDigitValue(c: char): (v: nat)
    requires IsHexDigit(c)
    ensures v < 16
  {
    if '0' <= c <= '9' then c as int - '0' as int
    else if 'a' <= c <= 'f' then c as int - 'a' as int + 10
    else c as int - 'A' as int + 10
  }

  predicate AllHex(s: string)
  {
    forall i :: 0 <= i < |s| ==> IsHexDigit(s[i])
  }

  function HexValue(s: string): nat
    requires AllHex(s)
    decreases |s|
  {
    if s == [] then 0 else HexValue(s[..|s| - 1]) * 16 + HexDigitValue(s[|s| - 1])
  }

  /** Python's `s[a:b]` for 0 <= a <= b: indices past the end are clipped. */
  function Slice(s: string, a: nat, b: nat): (r: string)
    requires a <= b
    ensures |r| <= b - a
  {
    var hi := if b <= |s| then b else |s|;
    var lo := if a <= hi then a else hi;
    s[lo..hi]
  }

  /**
   * Python `int(t, 16)` for any string whose value fits the hexadecimal
   * grammar without `0x` prefix or underscores: surrounding whitespace is
   * ignored, one sign is allowed, and what remains must be hexadecimal digits.
   * None where Python raises ValueError.
   */
  function IntBase16(t: string): Option<int>
  {
    var u := IntStrip(t);
    if u == "" then None
    else
      var body := if u[0] == '-' || u[0] == '+' then u[1..] else u;
      if body == "" || !AllHex(body) then None
      else
        var m: int := HexValue(body);
        Some(if u[0] == '-' then -m else m)
  }

  /**
   * `int(t, 16)` on a slice of at most two characters, case by case: two
   * digits, one digit beside whitespace, or a sign and one digit. At this
   * length a `0x` prefix or an underscore can never be part of a valid literal.
   */
  function ParseHexSlice(t: string): (v: Option<int>)
    requires |t| <= 2
  {
    if |t| == 0 then None
    else if |t| == 1 then
      if IsHexDigit(t[0]) then Some(HexDigitValue(t[0])) else None
    else if IsHexDigit(t[0]) && IsHexDigit(t[1]) then Some(16 * HexDigitValue(t[0]) + HexDigitValue(t[1]))
    else if IsHexDigit(t[0]) && IsIntSpace(t[1]) then Some(HexDigitValue(t[0]))
    else if (IsIntSpace(t[0]) || t[0] == '+') && IsHexDigit(t[1]) then Some(HexDigitValue(t[1]))
    else if t[0] == '-' && IsHexDigit(t[1]) then Some(0 - HexDigitValue(t[1]))
    else None
  }

  predicate InByteRange(v: int)
  {
    0 <= v <= 255
  }

  /** Component `i` (0 red, 1 green, 2 blue) of the '#'-stripped colour text. */
  function Component(h: string, i: nat): Option<int>
    requires i < 3
  {
    ParseHexSlice(Slice(h, 2 * i, 2 * i + 2))
  }

  function HexToRgb(s: string): Option<Rgb>
  {
    var h := LStrip(s, '#');
    var r := Component(h, 0);
    var g := Component(h, 1);
    var b := Component(h, 2);
    if r.None? || g.None? || b.None? then None
    else if !(InByteRange(r.value) && InByteRange(g.value) && InByteRange(b.value)) then None
    else Some(Rgb(r.value, g.value, b.value))
  }

  function Hashes(n: nat): (s: string)
    ensures |s| == n && forall i :: 0 <= i < n ==> s[i] == '#'
  {
    seq(n, i => '#')
  }

  lemma {:induction false} LStripHashes(n: nat, h: string)
    requires h == "" || h[0] != '#'
    ensures LStrip(Hashes(n) + h, '#') == h
    decreases n
  {
    if n > 0 {
      var s := Hashes(n) + h;
      assert s[0] == '#';
      assert Hashes(n)[1..] == Hashes(n - 1);
      assert s[1..] == Hashes(n - 1) + h;
      LStripHashes(n - 1, h);
    }
  }

  lemma {:induction false} HexNotSpace(c: char)
    requires IsHexDigit(c)
    ensures !IsIntSpace(c)
  {
  }

  lemma {:induction false} HexValueOne(c: char)
    requires IsHexDigit(c)
    ensures AllHex([c]) && HexValue([c]) == HexDigitValue(c)
  {
    assert [c][..0] == [];
  }

  lemma {:induction false} HexValueTwo(t: string)
    requires |t| == 2 && AllHex(t)
    ensures HexValue(t) == 16 * HexDigitValue(t[0]) + HexDigitValue(t[1])
  {
    assert t[..1] == [t[0]];
    HexValueOne(t[0]);
  }

  lemma {:induction false} IntStripOne(c: char)
    ensures IntStrip([c]) == if IsIntSpace(c) then [] else [c]
  {
    if !IsIntSpace(c) {
      TrimUnspaced([c], IsIntSpace);
    } else {
      assert TrimStart([c], IsIntSpace) == TrimStart([], IsIntSpace);
    }
  }

  lemma {:induction false} IntStripTwo(t: string)
    requires |t| == 2
    ensures IsIntSpace(t[0]) ==> IntStrip(t) == IntStrip([t[1]])
    ensures !IsIntSpace(t[0]) && IsIntSpace(t[1]) ==> IntStrip(t) == [t[0]]
    ensures !IsIntSpace(t[0]) && !IsIntSpace(t[1]) ==> IntStrip(t) == t
  {
    if IsIntSpace(t[0]) {
      assert t[1..] == [t[1]];
    } else if IsIntSpace(t[1]) {
      assert TrimStart(t, IsIntSpace) == t;
      assert t[..1] == [t[0]];
      assert TrimEnd([t[0]], IsIntSpace) == [t[0]];
    } else {
      TrimUnspaced(t, IsIntSpace);
    }
  }

  lemma {:induction false} ParseOneIsInt(c: char)
    ensures ParseHexSlice([c]) == IntBase16([c])
  {
    IntStripOne(c);
    if IsIntSpace(c) {
      HexSpaceDisjoint(c);
    } else if c == '-' || c == '+' {
      assert [c][1..] == [];
    } else if IsHexDigit(c) {
      HexValueOne(c);
    } else {
      assert !IsHexDigit([c][0]);
    }
  }

  lemma {:induction false} HexSpaceDisjoint(c: char)
    requires IsIntSpace(c)
    ensures !IsHexDigit(c)
  {
  }

  lemma {:induction false} ParseSpaceFirstIsInt(t: string)
    requires |t| == 2 && IsIntSpace(t[0])
    ensures ParseHexSlice(t) == IntBase16(t)
  {
    IntStripTwo(t);
    IntBase16OfStripped(t, [t[1]]);
    ParseOneIsInt(t[1]);
    HexSpaceDisjoint(t[0]);
    assert t[0] != '-' && t[0] != '+';
    assert ParseHexSlice(t) == ParseHexSlice([t[1]]);
  }

  /** `int` only sees the stripped text. */
  lemma {:induction false} IntBase16OfStripped(t: string, t': string)
    requires IntStrip(t) == IntStrip(t')
    ensures IntBase16(t) == IntBase16(t')
  {
  }

  lemma {:induction false} ParseSpaceSecondIsInt(t: string)
    requires |t| == 2 && !IsIntSpace(t[0]) && IsIntSpace(t[1])
    ensures ParseHexSlice(t) == IntBase16(t)
  {
    IntStripTwo(t);
    ParseOneIsInt(t[0]);
    assert !IsHexDigit(t[1]);
  }

  lemma {:induction false} ParseSignedIsInt(t: string)
    requires |t| == 2 && (t[0] == '-' || t[0] == '+') && !IsIntSpace(t[1])
    ensures ParseHexSlice(t) == IntBase16(t)
  {
    IntStripTwo(t);
    assert t[1..] == [t[1]];
    if IsHexDigit(t[1]) {
      HexValueOne(t[1]);
    }
  }

  lemma {:induction false} ParseUnsignedIsInt(t: string)
    requires |t| == 2 && t[0] != '-' && t[0] != '+' && !IsIntSpace(t[0]) && !IsIntSpace(t[1])
    ensures ParseHexSlice(t) == IntBase16(t)
  {
    IntStripTwo(t);
    if IsHexDigit(t[0]) && IsHexDigit(t[1]) {
      HexValueTwo(t);
    } else {
      assert !AllHex(t);
    }
  }

  /** The case analysis is Python's `int(t, 16)` on every string of at most two characters. */
  lemma {:induction false} ParseHexSliceIsInt(t: string)
    requires |t| <= 2
    ensures ParseHexSlice(t) == IntBase16(t)
  {
    if |t| == 1 {
      assert t == [t[0]];
      ParseOneIsInt(t[0]);
    } else if |t| == 2 {
      if IsIntSpace(t[0]) {
        ParseSpaceFirstIsInt(t);
      } else if IsIntSpace(t[1]) {
        ParseSpaceSecondIsInt(t);
      } else if t[0] == '-' || t[0] == '+' {
        ParseSignedIsInt(t);
      } else {
        ParseUnsignedIsInt(t);
      }
    }
  }

  lemma {:induction false} PairComponent(h: string, i: nat)
    requires i < 3 && |h| >= 2 * i + 2
    requires IsHexDigit(h[2 * i]) && IsHexDigit(h[2 * i + 1])
    ensures Component(h, i) == Some(16 * HexDigitValue(h[2 * i]) + HexDigitValue(h[2 * i + 1]))
  {
    var t := h[2 * i..2 * i + 2];
    assert Slice(h, 2 * i, 2 * i + 2) == t;
    assert t[0] == h[2 * i] && t[1] == h[2 * i + 1];
  }

  /**
   * Any number of leading '#', then six hexadecimal digits in either case, then
   * anything: the colour is read from exactly those three digit pairs and the
   * trailing characters are ignored.
   */
  lemma {:induction false} HexToRgbReadsThreePairs(n: nat, h: string)
    requires |h| >= 6 && forall i :: 0 <= i < 6 ==> IsHexDigit(h[i])
    ensures HexToRgb(Hashes(n) + h) ==
      Some(Rgb(16 * HexDigitValue(h[0]) + HexDigitValue(h[1]),
               16 * HexDigitValue(h[2]) + HexDigitValue(h[3]),
               16 * HexDigitValue(h[4]) + HexDigitValue(h[5])))
  {
    ThreePairComponents(h);
    HexToRgbOfHashes(n, h,
      16 * HexDigitValue(h[0]) + HexDigitValue(h[1]),
      16 * HexDigitValue(h[2]) + HexDigitValue(h[3]),
      16 * HexDigitValue(h[4]) + HexDigitValue(h[5]));
  }

  /** Leading '#'s, then three slices that parse to byte values: the colour of those values. */
  lemma {:induction false} HexToRgbOfHashes(n: nat, h: string, r: int, g: int, b: int)
    requires h == "" || h[0] != '#'
    requires Component(h, 0) == Some(r) && Component(h, 1) == Some(g) && Component(h, 2) == Some(b)
    requires InByteRange(r) && InByteRange(g) && InByteRange(b)
    ensures HexToRgb(Hashes(n) + h) == Some(Rgb(r, g, b))
  {
    LStripHashes(n, h);
    HexToRgbOfStripped(Hashes(n) + h, h, r, g, b);
  }

  lemma {:induction false} ThreePairComponents(h: string)
    requires |h| >= 6 && forall i :: 0 <= i < 6 ==> IsHexDigit(h[i])
    ensures Component(h, 0) == Some(16 * HexDigitValue(h[0]) + HexDigitValue(h[1]))
    ensures Component(h, 1) == Some(16 * HexDigitValue(h[2]) + HexDigitValue(h[3]))
    ensures Component(h, 2) == Some(16 * HexDigitValue(h[4]) + HexDigitValue(h[5]))
    ensures InByteRange(16 * HexDigitValue(h[0]) + HexDigitValue(h[1]))
    ensures InByteRange(16 * HexDigitValue(h[2]) + HexDigitValue(h[3]))
    ensures InByteRange(16 * HexDigitValue(h[4]) + HexDigitValue(h[5]))
  {
    PairComponent(h, 0);
    PairComponent(h, 1);
    PairComponent(h, 2);
  }

  lemma {:induction false} HexToRgbOfStripped(s: string, h: string, r: int, g: int, b: int)
    requires LStrip(s, '#') == h
    requires Component(h, 0) == Some(r) && Component(h, 1) == Some(g) && Component(h, 2) == Some(b)
    requires InByteRange(r) && InByteRange(g) && InByteRange(b)
    ensures HexToRgb(s) == Some(Rgb(r, g, b))
  {
  }

  // ---------------------------------------------------------------------
  // Writing a colour back as `#rrggbb` (lower case), the partner of HexToRgb
  // ---------------------------------------------------------------------

  function HexDigitChar(d: nat): (c: char)
    requires d < 16
    ensures IsHexDigit(c) && HexDigitValue(c) == d
  {
    if d < 10 then (d + '0' as int) as char else (d - 10 + 'a' as int) as char
  }

  function ByteHex(v: int): (s: string)
    requires InByteRange(v)
    ensures |s| == 2 && AllHex(s) && 16 * HexDigitValue(s[0]) + HexDigitValue(s[1]) == v
  {
    [HexDigitChar(v / 16), HexDigitChar(v % 16)]
  }

  function RgbToHex(c: Rgb): string
    requires InByteRange(c.r) && InByteRange(c.g) && InByteRange(c.b)
  {
    "#" + ByteHex(c.r) + ByteHex(c.g) + ByteHex(c.b)
  }

  /** Every colour with byte-range components survives the round trip through `#rrggbb`. */
  lemma {:induction false} HexToRgbRoundTrip(c: Rgb)
    requires InByteRange(c.r) && InByteRange(c.g) && InByteRange(c.b)
    ensures HexToRgb(RgbToHex(c)) == Some(c)
  {
    var x, y, z := ByteHex(c.r), ByteHex(c.g), ByteHex(c.b);
    var h := x + y + z;
    assert RgbToHex(c) == Hashes(1) + h;
    assert h[0] == x[0] && h[1] == x[1] && h[2] == y[0] && h[3] == y[1] && h[4] == z[0] && h[5] == z[1];
    HexToRgbReadsThreePairs(1, h);
  }

  /** The heading colours of the default style: level 1 `#1a365d`. */
  lemma {:induction false} DefaultTitle1Colour()
    ensures HexToRgb("#1a365d") == Some(Rgb(26, 54, 93))
  {
    var h := "1a365d";
    assert "#1a365d" == Hashes(1) + h;
    LStripHashes(1, h);
    PairComponent(h, 0);
    PairComponent(h, 1);
    PairComponent(h, 2);
    HexToRgbOfStripped("#1a365d", h, 26, 54, 93);
  }

  /** Level 2 `#000000`. */
  lemma {:induction false} DefaultTitle2Colour()
    ensures HexToRgb("#000000") == Some(Rgb(0, 0, 0))
  {
    var h := "000000";
    assert "#000000" == Hashes(1) + h;
    LStripHashes(1, h);
    PairComponent(h, 0);
    PairComponent(h, 1);
    PairComponent(h, 2);
    HexToRgbOfStripped("#000000", h, 0, 0, 0);
  }

  /** Level 3 `#333333`. */
  lemma {:induction false} DefaultTitle3Colour()
    ensures HexToRgb("#333333") == Some(Rgb(51, 51, 51))
  {
    var h := "333333";
    assert "#333333" == Hashes(1) + h;
    LStripHashes(1, h);
    PairComponent(h, 0);
    PairComponent(h, 1);
    PairComponent(h, 2);
    HexToRgbOfStripped("#333333", h, 51, 51, 51);
  }

  // What `int(…, 16)` tolerates and refuses: a five-digit colour reads its last
  // slice as a single digit, a four-digit one fails on the empty third slice,
  // and a negative component is refused by the colour constructor.

  lemma {:induction false} HexToRgbFiveDigits()
    ensures HexToRgb("#12345") == Some(Rgb(18, 52, 5))
  {
    var h := "12345";
    assert "#12345" == Hashes(1) + h;
    LStripHashes(1, h);
    PairComponent(h, 0);
    PairComponent(h, 1);
    assert Slice(h, 4, 6) == "5";
    HexToRgbOfStripped("#12345", h, 18, 52, 5);
  }

  lemma {:induction false} HexToRgbFourDigits()
    ensures HexToRgb("#1234") == None
  {
    var h := "1234";
    assert "#1234" == Hashes(1) + h;
    LStripHashes(1, h);
    assert Slice(h, 4, 6) == "";
  }

  lemma {:induction false} HexToRgbNegative()
    ensures HexToRgb("-1-1-1") == None
  {
    var h := "-1-1-1";
    assert LStrip(h, '#') == h;
    var t := Slice(h, 0, 2);
    assert t == "-1";
    assert !IsHexDigit(t[0]) && !IsIntSpace(t[0]) && IsHexDigit(t[1]);
    assert ParseHexSlice(t) == Some(-1);
  }

  /** A colour fails as soon as one of its three slices does not parse. */
  lemma {:induction false} FailedComponent(s: string, h: string, i: nat)
    requires LStrip(s, '#') == h && i < 3 && Component(h, i) == None
    ensures HexToRgb(s) == None
  {
  }

  /**
   * The information separators U+001C..U+001F are whitespace to
   * `str.isspace()` but not to `int()`, so a slice such as "\x1c1" is refused
   * and the colour does not parse.
   */
  lemma {:induction false} SeparatorSliceRefused(t: string)
    requires |t| == 2 && '\U{001C}' <= t[0] <= '\U{001F}' && IsHexDigit(t[1])
    ensures IntBase16(t) == None && ParseHexSlice(t) == None
  {
    HexNotSpace(t[1]);
    IntStripTwo(t);
  }

  lemma {:induction false} SeparatorNotSkipped()
    ensures HexToRgb("\U{001C}1\U{001C}1\U{001C}1") == None
  {
    var h := "\U{001C}1\U{001C}1\U{001C}1";
    LStripHashes(0, h);
    assert Hashes(0) + h == h;
    assert Slice(h, 0, 2) == "\U{001C}1";
    SeparatorSliceRefused("\U{001C}1");
    FailedComponent(h, h, 0);
  }
}
