/** Python string behaviour the core relies on: `str(int)`, `int(str)`, `str.strip()`,
    `str.zfill`, `str.split(sep)`, `sep.join`, `re.findall(r"\d+")`,
    `str.isnumeric()` and `str.replace` of one character. Only ASCII digits are
    modelled as digits. */
module Strings {
  import opened Wrappers

  predicate IsDigit(c: char) {
    '0' <= c <= '9'
  }

  predicate AllDigits(s: string) {
    forall i :: 0 <= i < |s| ==> IsDigit(s[i])
  }

  /** A digit string holds no character that is not a digit. */
  lemma DigitsExclude(s: string, c: char)
    requires AllDigits(s) && !IsDigit(c)
    ensures c !in s
  {
  }

  function DigitChar(d: nat): (c: char)
    requires d < 10
    ensures IsDigit(c) && DigitValue(c) == d
  {
    (48 + d) as char
  }

  function DigitValue(c: char): nat
    requires IsDigit(c)
  {
    (c as int) - 48
  }

  function Pow10(k: nat): (p: nat)
    ensures p >= 1
  {
    if k == 0 then 1 else 10 * Pow10(k - 1)
  }

  /** `str(n)` for a non-negative integer: decimal digits, no leading zero. */
  function NatToString(n: nat): (s: string)
    ensures |s| >= 1 && AllDigits(s)
    decreases n
  {
    if n < 10 then [DigitChar(n)] else NatToString(n / 10) + [DigitChar(n % 10)]
  }

  /** `str(i)` for any integer. */
  function IntToString(i: int): string {
    if i < 0 then "-" + NatToString(-i) else NatToString(i)
  }

  /** `int(s)` for a string of ASCII digits (leading zeros allowed). */
  function ParseDigits(s: string): nat
    requires AllDigits(s)
  {
    if s == [] then 0 else 10 * ParseDigits(s[..|s| - 1]) + DigitValue(s[|s| - 1])
  }

  /** Reading back what `str` printed gives the number again. */
  lemma {:induction false} ParseNatToString(n: nat)
    ensures ParseDigits(NatToString(n)) == n
    decreases n
  {
    var s := NatToString(n);
    if n >= 10 {
      ParseNatToString(n / 10);
      assert s[..|s| - 1] == NatToString(n / 10);
    }
  }

  /** A number below 10^k prints with at most k digits. */
  lemma {:induction false} NatToStringLength(n: nat, k: nat)
    requires k >= 1 && n < Pow10(k)
    ensures |NatToString(n)| <= k
    decreases n
  {
    if n >= 10 {
      assert Pow10(1) == 10;
      assert n / 10 < Pow10(k - 1);
      NatToStringLength(n / 10, k - 1);
    }
  }

  function Zeros(k: nat): (s: string)
    ensures |s| == k && forall i :: 0 <= i < k ==> s[i] == '0'
  {
    if k == 0 then "" else Zeros(k - 1) + "0"
  }

  /** Python's `s.zfill(width)`: pad with zeros after an optional sign. */
  function Zfill(s: string, width: nat): (r: string)
    ensures |r| == if |s| >= width then |s| else width
  {
    if |s| >= width then s
    else if |s| > 0 && (s[0] == '+' || s[0] == '-') then [s[0]] + Zeros(width - |s|) + s[1..]
    else Zeros(width - |s|) + s
  }

  /** `str(frame).zfill(width)`, which is also what `"%0<width>d" % frame` prints. */
  function PadFrame(frame: int, width: nat): string {
    Zfill(IntToString(frame), width)
  }

  lemma {:induction false} ParseLeadingZeros(k: nat, s: string)
    requires AllDigits(s)
    ensures AllDigits(Zeros(k) + s) && ParseDigits(Zeros(k) + s) == ParseDigits(s)
    decreases |s|, k
  {
    var z := Zeros(k) + s;
    if s == [] {
      assert z == Zeros(k);
      if k > 0 {
        assert z[..|z| - 1] == Zeros(k - 1) + [];
        ParseLeadingZeros(k - 1, []);
      }
    } else {
      assert z[..|z| - 1] == Zeros(k) + s[..|s| - 1];
      ParseLeadingZeros(k, s[..|s| - 1]);
    }
  }

  /** For a frame in [0, 10^width) the padded field is exactly `width` digits and reads
      back as the frame. */
  lemma PadFrameExact(frame: int, width: nat)
    requires width >= 1 && 0 <= frame < Pow10(width)
    ensures |PadFrame(frame, width)| == width
    ensures AllDigits(PadFrame(frame, width))
    ensures ParseDigits(PadFrame(frame, width)) == frame
  {
    var s := NatToString(frame);
    NatToStringLength(frame, width);
    ParseNatToString(frame);
    assert !(s[0] == '+' || s[0] == '-');
    ParseLeadingZeros(width - |s|, s);
  }

  /** Python's `s.split(sep)` for a one-character separator. */
  function Split(s: string, sep: char): (parts: seq<string>)
    ensures |parts| >= 1
    ensures forall i :: 0 <= i < |parts| ==> sep !in parts[i]
  {
    if s == [] then [""]
    else
      var rest := Split(s[1..], sep);
      if s[0] == sep then [""] + rest else [[s[0]] + rest[0]] + rest[1..]
  }

  /** Python's `sep.join(parts)`. */
  function Join(parts: seq<string>, sep: char): string {
    if parts == [] then ""
    else if |parts| == 1 then parts[0]
    else parts[0] + [sep] + Join(parts[1..], sep)
  }

  /** Splitting and re-joining on the same separator gives the original text back. */
  lemma {:induction false} JoinSplit(s: string, sep: char)
    ensures Join(Split(s, sep), sep) == s
  {
    if s != [] {
      var rest := Split(s[1..], sep);
      JoinSplit(s[1..], sep);
      if s[0] == sep {
        assert Split(s, sep) == [""] + rest;
        assert Join([""] + rest, sep) == "" + [sep] + Join(rest, sep);
        assert s == [s[0]] + s[1..];
      } else {
        var parts := [[s[0]] + rest[0]] + rest[1..];
        assert Split(s, sep) == parts;
        if |rest| == 1 {
          assert Join(parts, sep) == [s[0]] + rest[0];
        } else {
          assert parts[1..] == rest[1..];
          assert Join(parts, sep) == ([s[0]] + rest[0]) + [sep] + Join(rest[1..], sep);
          assert Join(rest, sep) == rest[0] + [sep] + Join(rest[1..], sep);
        }
        assert Join(parts, sep) == [s[0]] + Join(rest, sep);
        assert s == [s[0]] + s[1..];
      }
    }
  }

  /** Text without the separator is one part. */
  lemma {:induction false} SplitWithoutSep(s: string, sep: char)
    requires sep !in s
    ensures Split(s, sep) == [s]
  {
    if s != [] {
      SplitWithoutSep(s[1..], sep);
      assert [s[0]] + s[1..] == s;
    }
  }

  /** Splitting text that has a separator in the middle splits both sides. */
  lemma {:induction false} SplitAround(a: string, b: string, sep: char)
    ensures Split(a + [sep] + b, sep) == Split(a, sep) + Split(b, sep)
    decreases |a|
  {
    var s := a + [sep] + b;
    if a == [] {
      assert s[1..] == b;
    } else {
      assert s[1..] == a[1..] + [sep] + b;
      SplitAround(a[1..], b, sep);
    }
  }

  /** Number of ASCII digits at the start of `s`. */
  function LeadingDigits(s: string): (k: nat)
    ensures k <= |s| && AllDigits(s[..k]) && (k == |s| || !IsDigit(s[k]))
  {
    if s == [] || !IsDigit(s[0]) then 0
    else
      var k := 1 + LeadingDigits(s[1..]);
      assert s[..k] == [s[0]] + s[1..][..k - 1];
      k
  }

  /** `re.findall(r"\d+", s)`: the maximal runs of digits, left to right. */
  function DigitRuns(s: string): (runs: seq<string>)
    ensures forall i :: 0 <= i < |runs| ==> |runs[i]| >= 1 && AllDigits(runs[i])
    decreases |s|
  {
    if s == [] then []
    else if !IsDigit(s[0]) then DigitRuns(s[1..])
    else
      var k := LeadingDigits(s);
      [s[..k]] + DigitRuns(s[k..])
  }

  /** The digits of `s`, in order, every other character dropped. */
  function DigitsOf(s: string): (d: string)
    ensures AllDigits(d) && |d| <= |s|
  {
    if s == [] then "" else (if IsDigit(s[0]) then [s[0]] else "") + DigitsOf(s[1..])
  }

  /** The strings of `parts` put together. */
  function Concat(parts: seq<string>): string {
    if parts == [] then "" else parts[0] + Concat(parts[1..])
  }

  lemma {:induction false} DigitsOfAppend(a: string, b: string)
    ensures DigitsOf(a + b) == DigitsOf(a) + DigitsOf(b)
  {
    if a != [] {
      assert (a + b)[1..] == a[1..] + b;
      DigitsOfAppend(a[1..], b);
    } else {
      assert a + b == b;
    }
  }

  lemma {:induction false} DigitsOfDigits(a: string)
    requires AllDigits(a)
    ensures DigitsOf(a) == a
  {
    if a != [] {
      DigitsOfDigits(a[1..]);
      assert a == [a[0]] + a[1..];
    }
  }

  /** `re.findall(r"\d+", s)` loses no digit and adds none: its runs, put
      together, are the digits of `s` in order. */
  lemma {:induction false} DigitRunsCoverDigits(s: string)
    ensures Concat(DigitRuns(s)) == DigitsOf(s)
    decreases |s|
  {
    if s != [] {
      if !IsDigit(s[0]) {
        DigitRunsCoverDigits(s[1..]);
      } else {
        var k := LeadingDigits(s);
        DigitRunsCoverDigits(s[k..]);
        DigitsOfDigits(s[..k]);
        DigitsOfAppend(s[..k], s[k..]);
        assert s[..k] + s[k..] == s;
        var runs := [s[..k]] + DigitRuns(s[k..]);
        assert runs[1..] == DigitRuns(s[k..]);
      }
    }
  }

  /** A prefix without digits adds no run. */
  lemma {:induction false} DigitRunsSkip(p: string, s: string)
    requires forall i :: 0 <= i < |p| ==> !IsDigit(p[i])
    ensures DigitRuns(p + s) == DigitRuns(s)
    decreases |p|
  {
    if p == [] {
      assert p + s == s;
    } else {
      assert (p + s)[1..] == p[1..] + s;
      DigitRunsSkip(p[1..], s);
    }
  }

  /** A run of digits followed by a non-digit, or by nothing, is one run. */
  lemma {:induction false} DigitRunsRun(d: string, s: string)
    requires |d| >= 1 && AllDigits(d) && (s == [] || !IsDigit(s[0]))
    ensures DigitRuns(d + s) == [d] + DigitRuns(s)
  {
    LeadingDigitsRun(d, s);
    assert (d + s)[..|d|] == d;
    assert (d + s)[|d|..] == s;
  }

  lemma {:induction false} LeadingDigitsRun(d: string, s: string)
    requires AllDigits(d) && (s == [] || !IsDigit(s[0]))
    ensures LeadingDigits(d + s) == |d|
    decreases |d|
  {
    if d == [] {
      assert d + s == s;
    } else {
      assert (d + s)[1..] == d[1..] + s;
      LeadingDigitsRun(d[1..], s);
    }
  }

  /** `s.isnumeric()`, with ASCII digits standing for numeric characters. */
  predicate IsNumeric(s: string) {
    |s| >= 1 && AllDigits(s)
  }

  /** `s.replace(a, b)` for single characters. */
  function ReplaceChar(s: string, a: char, b: char): (r: string)
    ensures |r| == |s|
    ensures forall i :: 0 <= i < |s| ==> r[i] == (if s[i] == a then b else s[i])
  {
    if s == [] then "" else [if s[0] == a then b else s[0]] + ReplaceChar(s[1..], a, b)
  }

  // ---------------------------------------------------------------------
  // int(str)

  /** The ASCII characters `str.strip()` and `int()` treat as white space:
      space, tab to carriage return, and the four separators 0x1C to 0x1F. */
  predicate IsSpace(c: char) {
    c == ' ' || 9 <= c as int <= 13 || 28 <= c as int <= 31
  }

  predicate AllSpaces(s: string) {
    forall i :: 0 <= i < |s| ==> IsSpace(s[i])
  }

  /** The end of the run of white space that starts at `k`. */
  function SpacesFrom(s: string, k: nat): (n: nat)
    requires k <= |s|
    ensures k <= n <= |s|
    ensures forall i :: k <= i < n ==> IsSpace(s[i])
    ensures n == |s| || !IsSpace(s[n])
    decreases |s| - k
  {
    if k < |s| && IsSpace(s[k]) then SpacesFrom(s, k + 1) else k
  }

  /** The start of the run of white space that ends at `k`. */
  function SpacesBefore(s: string, k: nat): (n: nat)
    requires k <= |s|
    ensures n <= k
    ensures forall i :: n <= i < k ==> IsSpace(s[i])
    ensures n == 0 || !IsSpace(s[n - 1])
  {
    if k > 0 && IsSpace(s[k - 1]) then SpacesBefore(s, k - 1) else k
  }

  /** `s.lstrip()`: the suffix left after the leading white space. */
  function LStrip(s: string): (r: string)
    ensures |r| <= |s| && r == s[|s| - |r|..]
    ensures forall i :: 0 <= i < |s| - |r| ==> IsSpace(s[i])
    ensures r == [] || !IsSpace(r[0])
  {
    s[SpacesFrom(s, 0)..]
  }

  /** `s.rstrip()`: the prefix left before the trailing white space. */
  function RStrip(s: string): (r: string)
    ensures |r| <= |s| && r == s[..|r|]
    ensures forall i :: |r| <= i < |s| ==> IsSpace(s[i])
    ensures r == [] || !IsSpace(r[|r| - 1])
  {
    s[..SpacesBefore(s, |s|)]
  }

  /** `s.strip()`. */
  function Strip(s: string): string {
    RStrip(LStrip(s))
  }

  /** The scan over leading white space stops where the text begins. */
  lemma {:induction false} SpacesFromPadding(pre: string, s: string, k: nat)
    requires k <= |pre| && AllSpaces(pre) && (s == [] || !IsSpace(s[0]))
    ensures SpacesFrom(pre + s, k) == |pre|
    decreases |pre| - k
  {
    if k < |pre| {
      assert (pre + s)[k] == pre[k];
      SpacesFromPadding(pre, s, k + 1);
    } else if s != [] {
      assert (pre + s)[k] == s[0];
    }
  }

  /** The scan over trailing white space stops where the text ends. */
  lemma {:induction false} SpacesBeforePadding(s: string, post: string, k: nat)
    requires |s| <= k <= |s| + |post| && AllSpaces(post) && (s == [] || !IsSpace(s[|s| - 1]))
    ensures SpacesBefore(s + post, k) == |s|
    decreases k
  {
    if k > |s| {
      assert (s + post)[k - 1] == post[k - 1 - |s|];
      SpacesBeforePadding(s, post, k - 1);
    } else if s != [] {
      assert (s + post)[k - 1] == s[|s| - 1];
    }
  }

  /** Leading white space is dropped up to the first other character. */
  lemma LStripSpaces(pre: string, s: string)
    requires AllSpaces(pre) && (s == [] || !IsSpace(s[0]))
    ensures LStrip(pre + s) == s
  {
    SpacesFromPadding(pre, s, 0);
    assert (pre + s)[|pre|..] == s;
  }

  /** Trailing white space is dropped back to the last other character. */
  lemma RStripSpaces(s: string, post: string)
    requires AllSpaces(post) && (s == [] || !IsSpace(s[|s| - 1]))
    ensures RStrip(s + post) == s
  {
    SpacesBeforePadding(s, post, |s + post|);
    assert (s + post)[..|s|] == s;
  }

  /** Stripping text padded with white space gives the text back when it
      neither starts nor ends with white space. */
  lemma StripPadded(pre: string, s: string, post: string)
    requires AllSpaces(pre) && AllSpaces(post)
    requires s != [] && !IsSpace(s[0]) && !IsSpace(s[|s| - 1])
    ensures Strip(pre + s + post) == s
  {
    assert pre + s + post == pre + (s + post);
    LStripSpaces(pre, s + post);
    RStripSpaces(s, post);
  }

  /** The character after an underscore at `i` is a digit. */
  predicate DigitAfterUnderscore(s: string, i: nat)
    requires i + 1 < |s|
  {
    s[i] == '_' ==> IsDigit(s[i + 1])
  }

  /** A decimal literal as `int()` reads it: digits, with single underscores
      between digits. */
  predicate IsDecimalLiteral(s: string) {
    |s| >= 1 && IsDigit(s[0]) && IsDigit(s[|s| - 1]) &&
    (forall i :: 0 <= i < |s| ==> IsDigit(s[i]) || s[i] == '_') &&
    (forall i :: 0 <= i < |s| - 1 ==> DigitAfterUnderscore(s, i))
  }

  /** The digits of a literal without its underscores. */
  function WithoutUnderscores(s: string): (d: string)
    requires forall i :: 0 <= i < |s| ==> IsDigit(s[i]) || s[i] == '_'
    ensures AllDigits(d) && |d| <= |s|
  {
    if s == [] then []
    else (if s[0] == '_' then [] else [s[0]]) + WithoutUnderscores(s[1..])
  }

  /** `int(s)` for a string: the surrounding white space is ignored, then an
      optional sign and a decimal literal are read; anything else is refused
      (`None` stands for the `ValueError`). */
  function ParseInt(s: string): Option<int> {
    ReadSigned(Strip(s))
  }

  /** An optional sign and a decimal literal, the whole of `t`. */
  function ReadSigned(t: string): Option<int> {
    if |t| >= 1 && (t[0] == '+' || t[0] == '-') && IsDecimalLiteral(t[1..]) then
      var n := ParseDigits(WithoutUnderscores(t[1..]));
      Some(if t[0] == '-' then 0 - n else n)
    else if IsDecimalLiteral(t) then Some(ParseDigits(WithoutUnderscores(t)))
    else None
  }

  /** A digit string has no underscore to drop. */
  lemma {:induction false} WithoutUnderscoresDigits(s: string)
    requires AllDigits(s)
    ensures WithoutUnderscores(s) == s
  {
    if s != [] {
      WithoutUnderscoresDigits(s[1..]);
      assert [s[0]] + s[1..] == s;
    }
  }

  /** Dropping underscores distributes over concatenation. */
  lemma {:induction false} WithoutUnderscoresAppend(a: string, b: string)
    requires forall i :: 0 <= i < |a| ==> IsDigit(a[i]) || a[i] == '_'
    requires forall i :: 0 <= i < |b| ==> IsDigit(b[i]) || b[i] == '_'
    ensures WithoutUnderscores(a + b) == WithoutUnderscores(a) + WithoutUnderscores(b)
  {
    if a == [] {
      assert a + b == b;
    } else {
      assert (a + b)[1..] == a[1..] + b;
      WithoutUnderscoresAppend(a[1..], b);
    }
  }

  /** A digit string is a decimal literal. */
  lemma DigitsLiteral(d: string)
    requires |d| >= 1 && AllDigits(d)
    ensures IsDecimalLiteral(d) && WithoutUnderscores(d) == d
  {
    WithoutUnderscoresDigits(d);
  }

  /** A literal without a sign reads as its digits. */
  lemma ReadUnsigned(t: string)
    requires IsDecimalLiteral(t)
    ensures ReadSigned(t) == Some(ParseDigits(WithoutUnderscores(t)))
  {
    assert t[0] != '+' && t[0] != '-';
  }

  /** A literal after `-` reads as the negated digits. */
  lemma ReadNegative(t: string)
    requires |t| >= 1 && t[0] == '-' && IsDecimalLiteral(t[1..])
    ensures ReadSigned(t) == Some(0 - ParseDigits(WithoutUnderscores(t[1..])))
  {
  }

  /** `int()` reads back what `str()` printed, whatever white space
      surrounds it. */
  lemma ParseIntPadded(i: int, pre: string, post: string)
    requires AllSpaces(pre) && AllSpaces(post)
    ensures ParseInt(pre + IntToString(i) + post) == Some(i)
  {
    var n := if i < 0 then -i else i;
    var digits := NatToString(n);
    var text := IntToString(i);
    assert !IsSpace(text[0]) && !IsSpace(text[|text| - 1]);
    StripPadded(pre, text, post);
    DigitsLiteral(digits);
    ParseNatToString(n);
    if i < 0 {
      assert text[1..] == digits;
      ReadNegative(text);
    } else {
      ReadUnsigned(text);
    }
  }

  /** Dropping the underscores of digits around one underscore. */
  lemma {:induction false} DropUnderscore(a: string, b: string)
    requires AllDigits(a) && AllDigits(b)
    ensures forall i :: 0 <= i < |a + "_" + b| ==> IsDigit((a + "_" + b)[i]) || (a + "_" + b)[i] == '_'
    ensures WithoutUnderscores(a + "_" + b) == a + b
    decreases |a|
  {
    var t := a + "_" + b;
    assert forall i :: 0 <= i < |t| ==> IsDigit(t[i]) || t[i] == '_' by {
      forall i | 0 <= i < |t| ensures IsDigit(t[i]) || t[i] == '_' {
        if i < |a| { assert t[i] == a[i]; } else if i > |a| { assert t[i] == b[i - |a| - 1]; }
      }
    }
    if a == [] {
      assert t[1..] == b;
      WithoutUnderscoresDigits(b);
    } else {
      assert t[1..] == a[1..] + "_" + b;
      DropUnderscore(a[1..], b);
      assert a + b == [a[0]] + (a[1..] + b);
    }
  }

  /** Digits around one underscore make a decimal literal. */
  lemma UnderscoreLiteral(a: string, b: string)
    requires |a| >= 1 && AllDigits(a) && |b| >= 1 && AllDigits(b)
    ensures IsDecimalLiteral(a + "_" + b)
  {
    var t := a + "_" + b;
    DropUnderscore(a, b);
    assert t[0] == a[0] && t[|t| - 1] == b[|b| - 1];
    forall i | 0 <= i < |t| - 1 ensures DigitAfterUnderscore(t, i) {
      if i < |a| {
        assert t[i] == a[i];
      } else if i == |a| {
        assert t[i + 1] == b[0];
      } else {
        assert t[i] == b[i - |a| - 1];
      }
    }
  }

  /** Text that neither starts nor ends with white space is its own strip. */
  lemma Unpadded(t: string)
    requires t != [] && !IsSpace(t[0]) && !IsSpace(t[|t| - 1])
    ensures Strip(t) == t
  {
    StripPadded([], t, []);
    assert [] + t + [] == t;
  }

  /** A decimal literal without white space or sign reads as its digits. */
  lemma ParseIntLiteral(t: string)
    requires IsDecimalLiteral(t)
    ensures ParseInt(t) == Some(ParseDigits(WithoutUnderscores(t)))
  {
    Unpadded(t);
    ReadUnsigned(t);
  }

  /** Digits alone read as their value. */
  lemma ParseIntDigits(u: string)
    requires |u| >= 1 && AllDigits(u)
    ensures ParseInt(u) == Some(ParseDigits(u))
  {
    DigitsLiteral(u);
    ParseIntLiteral(u);
  }

  /** Two digit strings joined are a digit string. */
  lemma AllDigitsAppend(a: string, b: string)
    requires AllDigits(a) && AllDigits(b)
    ensures AllDigits(a + b)
  {
    var u := a + b;
    forall i | 0 <= i < |u| ensures IsDigit(u[i]) {
      if i < |a| { assert u[i] == a[i]; } else { assert u[i] == b[i - |a|]; }
    }
  }

  /** Digits around one underscore read as the digits without it. */
  lemma ParseIntAroundUnderscore(a: string, b: string)
    requires |a| >= 1 && AllDigits(a) && |b| >= 1 && AllDigits(b)
    ensures ParseInt(a + "_" + b) == Some(ParseDigits(a + b))
  {
    UnderscoreLiteral(a, b);
    ParseIntLiteral(a + "_" + b);
    DropUnderscore(a, b);
  }

  /** An underscore between two groups of digits is ignored. */
  lemma ParseIntUnderscore(a: string, b: string)
    requires |a| >= 1 && AllDigits(a) && |b| >= 1 && AllDigits(b)
    ensures ParseInt(a + "_" + b) == ParseInt(a + b)
    ensures ParseInt(a + b) == Some(ParseDigits(a + b))
  {
    ParseIntAroundUnderscore(a, b);
    AllDigitsAppend(a, b);
    ParseIntDigits(a + b);
  }

  /** Text that is all white space is refused. */
  lemma ParseIntBlank(s: string)
    requires AllSpaces(s)
    ensures ParseInt(s) == None
  {
    assert s == s + [];
    RStripSpaces([], s);
    assert [] + s == s;
  }
}
