/** The handful of Python string operations the core relies on: `strip()`,
    `isdigit()`, `lower()`/`upper()`, `split(sep)`, slicing to a length, and
    the decimal conversions `str(n)`, `int(s)` and `f"{n:0Wd}"`. */
module Text {

  import opened Shared

  /** The characters for which Python's `str.isspace()` holds; `strip()`
      with no argument removes exactly these. */
  predicate IsSpace(c: char)
  {
    c in {' ', '\t', '\n', '\r', '\U{B}', '\U{C}', '\U{1C}', '\U{1D}', '\U{1E}', '\U{1F}',
          '\U{85}', '\U{A0}', '\U{1680}', '\U{2028}', '\U{2029}', '\U{202F}', '\U{205F}', '\U{3000}'}
    || '\U{2000}' <= c <= '\U{200A}'
  }

  /** `s.lstrip()`: a suffix of `s` whose dropped prefix is all white space. */
  function StripLeft(s: string): (r: string)
    ensures |r| <= |s| && r == s[|s| - |r|..]
    ensures r == [] || !IsSpace(r[0])
    ensures forall i :: 0 <= i < |s| - |r| ==> IsSpace(s[i])
  {
    if s != [] && IsSpace(s[0]) then StripLeft(s[1..]) else s
  }

  /** `s.rstrip()`: a prefix of `s` whose dropped suffix is all white space. */
  function StripRight(s: string): (r: string)
    ensures |r| <= |s| && r == s[..|r|]
    ensures r == [] || !IsSpace(r[|r| - 1])
    ensures forall i :: |r| <= i < |s| ==> IsSpace(s[i])
  {
    if s != [] && IsSpace(s[|s| - 1]) then StripRight(s[..|s| - 1]) else s
  }

  /** `s.strip()`. */
  function Strip(s: string): string
  {
    StripRight(StripLeft(s))
  }

  /** Stripping leaves no white space at either end, and keeps only
      characters of the input. */
  lemma StripEnds(s: string)
    ensures var r := Strip(s);
      (r == [] || (!IsSpace(r[0]) && !IsSpace(r[|r| - 1])))
      && forall i :: 0 <= i < |r| ==> r[i] in s
  {
    var l := StripLeft(s);
    var r := StripRight(l);
    forall i | 0 <= i < |r| ensures r[i] in s {
      assert r[i] == l[i] == s[|s| - |l| + i];
    }
  }

  /** A character that is not white space survives `lstrip()`, shifted
      left by the number of characters dropped. */
  lemma StripLeftKeeps(s: string, i: nat)
    requires i < |s| && !IsSpace(s[i])
    ensures var l := StripLeft(s); |s| - |l| <= i && l[i - (|s| - |l|)] == s[i]
  {
    var l := StripLeft(s);
    assert l[i - (|s| - |l|)] == s[|s| - |l|..][i - (|s| - |l|)];
  }

  /** A character that is not white space survives `rstrip()` at its own
      position. */
  lemma StripRightKeeps(s: string, i: nat)
    requires i < |s| && !IsSpace(s[i])
    ensures var r := StripRight(s); i < |r| && r[i] == s[i]
  {
    var r := StripRight(s);
    assert r[i] == s[..|r|][i];
  }

  /** Nothing but white space: Python's "blank" test `not s.strip()` (see
      `BlankIsStripEmpty`). */
  predicate Blank(s: string)
  {
    forall i :: 0 <= i < |s| ==> IsSpace(s[i])
  }

  /** A string strips to nothing exactly when it is all white space. */
  lemma BlankIsStripEmpty(s: string)
    ensures Blank(s) <==> Strip(s) == []
  {
    if Strip(s) == [] {
      assert StripLeft(s) == [];
    }
  }

  /** Stripping twice changes nothing more. */
  lemma StripIdempotent(s: string)
    ensures Strip(Strip(s)) == Strip(s)
  {
    var r := Strip(s);
    assert r == [] || !IsSpace(r[0]);
    assert StripLeft(r) == r;
  }

  /** Python's `str.isdigit()` restricted to the ASCII digits. */
  predicate IsDigit(c: char)
  {
    '0' <= c <= '9'
  }

  /** `s.isdigit()`: at least one character, and every one a digit. */
  predicate IsDigits(s: string)
  {
    s != [] && forall i :: 0 <= i < |s| ==> IsDigit(s[i])
  }

  /** `re.sub(r'\D', '', s)`: the digits of `s`, in order. */
  function KeepDigits(s: string): (r: string)
    ensures |r| <= |s|
    ensures forall i :: 0 <= i < |r| ==> IsDigit(r[i])
    ensures (forall i :: 0 <= i < |s| ==> IsDigit(s[i])) ==> r == s
  {
    if s == [] then []
    else if IsDigit(s[0]) then [s[0]] + KeepDigits(s[1..])
    else KeepDigits(s[1..])
  }

  function LowerChar(c: char): char
  {
    if 'A' <= c <= 'Z' then (c as int + 32) as char else c
  }

  function UpperChar(c: char): char
  {
    if 'a' <= c <= 'z' then (c as int - 32) as char else c
  }

  /** `s.lower()` on ASCII letters. */
  function Lower(s: string): string
  {
    seq(|s|, i requires 0 <= i < |s| => LowerChar(s[i]))
  }

  /** `s.upper()` on ASCII letters. */
  function Upper(s: string): string
  {
    seq(|s|, i requires 0 <= i < |s| => UpperChar(s[i]))
  }

  /** `s[:n]`. */
  function Take(s: string, n: nat): (r: string)
    ensures |r| <= n && r <= s
    ensures |s| <= n ==> r == s
  {
    if |s| <= n then s else s[..n]
  }

  /** Index of the first `c` in `s`. */
  function FirstIndex(s: string, c: char): (i: nat)
    requires c in s
    ensures i < |s| && s[i] == c && c !in s[..i]
  {
    if s[0] == c then 0 else 1 + FirstIndex(s[1..], c)
  }

  /** `sep.join(parts)`. */
  function Join(parts: seq<string>, sep: char): string
  {
    if parts == [] then []
    else if |parts| == 1 then parts[0]
    else parts[0] + [sep] + Join(parts[1..], sep)
  }

  /** `s.split(sep)` for a one-character separator: never empty, no piece
      holds the separator, and joining the pieces gives `s` back. */
  function Split(s: string, sep: char): (parts: seq<string>)
    ensures |parts| >= 1
    ensures forall i :: 0 <= i < |parts| ==> sep !in parts[i]
    ensures Join(parts, sep) == s
    decreases |s|
  {
    if sep !in s then [s]
    else
      var i := FirstIndex(s, sep);
      assert s == s[..i] + [sep] + s[i + 1..];
      [s[..i]] + Split(s[i + 1..], sep)
  }

  /** Joining one more piece puts a separator and the piece at the end. */
  lemma {:induction false} JoinSnoc(parts: seq<string>, t: string, sep: char)
    requires |parts| >= 1
    ensures Join(parts + [t], sep) == Join(parts, sep) + [sep] + t
    decreases |parts|
  {
    if |parts| > 1 {
      assert (parts + [t])[1..] == parts[1..] + [t];
      JoinSnoc(parts[1..], t, sep);
    }
  }

  /** Splitting a join of separator-free pieces gives the pieces back: the
      other half of the round trip in `Split`'s contract. */
  lemma {:induction false} SplitJoin(parts: seq<string>, sep: char)
    requires |parts| >= 1
    requires forall i :: 0 <= i < |parts| ==> sep !in parts[i]
    ensures Split(Join(parts, sep), sep) == parts
    decreases |parts|
  {
    if |parts| == 1 {
      assert sep !in parts[0];
    } else {
      var s := Join(parts, sep);
      var rest := Join(parts[1..], sep);
      assert s == parts[0] + [sep] + rest;
      assert sep !in parts[0];
      assert s[|parts[0]|] == sep;
      var i := FirstIndex(s, sep);
      assert s[..i] == parts[0];
      assert s[i + 1..] == rest;
      SplitJoin(parts[1..], sep);
    }
  }

  // ---------------------------------------------------------------------
  // Decimal numerals

  function DigitChar(d: nat): char
    requires d < 10
  {
    ('0' as int + d) as char
  }

  function DigitValue(c: char): nat
    requires IsDigit(c)
  {
    c as int - '0' as int
  }

  /** `str(n)` for a natural number: digits only, no leading zero. */
  function NatToString(n: nat): (r: string)
    ensures IsDigits(r)
    ensures |r| > 1 ==> r[0] != '0'
    decreases n
  {
    if n < 10 then [DigitChar(n)] else NatToString(n / 10) + [DigitChar(n % 10)]
  }

  /** The number a string of digits denotes. */
  function DigitsValue(s: string): nat
    requires forall i :: 0 <= i < |s| ==> IsDigit(s[i])
  {
    if s == [] then 0 else DigitsValue(s[..|s| - 1]) * 10 + DigitValue(s[|s| - 1])
  }

  /** Reading back the numeral of `n` gives `n`. */
  lemma {:induction false} NatToStringValue(n: nat)
    ensures DigitsValue(NatToString(n)) == n
    decreases n
  {
    if n >= 10 {
      var s := NatToString(n);
      assert s[..|s| - 1] == NatToString(n / 10);
      NatToStringValue(n / 10);
    }
  }

  /** Different numbers have different numerals. */
  lemma NatToStringInjective(m: nat, n: nat)
    requires NatToString(m) == NatToString(n)
    ensures m == n
  {
    NatToStringValue(m);
    NatToStringValue(n);
  }

  /** A run of digits followed by text that does not start with a digit can
      be read off unambiguously: two such decompositions of one string agree. */
  lemma DigitRunUnique(a: string, x: string, b: string, y: string)
    requires forall i :: 0 <= i < |a| ==> IsDigit(a[i])
    requires forall i :: 0 <= i < |b| ==> IsDigit(b[i])
    requires x == [] || !IsDigit(x[0])
    requires y == [] || !IsDigit(y[0])
    requires a + x == b + y
    ensures a == b && x == y
  {
    assert a == (a + x)[..|a|];
    assert b == (b + y)[..|b|];
    assert x == (a + x)[|a|..];
    assert y == (b + y)[|b|..];
  }

  /** A label made of a fixed prefix, a numeral and a tail that does not
      start with a digit names its number unambiguously. */
  lemma NumberedLabelUnique(prefix: string, m: nat, x: string, n: nat, y: string)
    requires x == [] || !IsDigit(x[0])
    requires y == [] || !IsDigit(y[0])
    requires prefix + NatToString(m) + x == prefix + NatToString(n) + y
    ensures m == n && x == y
  {
    var a := prefix + NatToString(m) + x;
    assert a[|prefix|..] == NatToString(m) + x;
    assert (prefix + NatToString(n) + y)[|prefix|..] == NatToString(n) + y;
    DigitRunUnique(NatToString(m), x, NatToString(n), y);
    NatToStringInjective(m, n);
  }

  function Zeros(k: nat): (r: string)
    ensures |r| == k && forall i :: 0 <= i < k ==> r[i] == '0'
  {
    if k == 0 then [] else Zeros(k - 1) + ['0']
  }

  /** Leading zeros do not change the value of a numeral. */
  lemma {:induction false} LeadingZerosValue(k: nat, s: string)
    requires forall i :: 0 <= i < |s| ==> IsDigit(s[i])
    ensures DigitsValue(Zeros(k) + s) == DigitsValue(s)
    decreases |s|
  {
    var z := Zeros(k) + s;
    if s == [] {
      ZerosValue(k);
      assert z == Zeros(k);
    } else {
      assert z[..|z| - 1] == Zeros(k) + s[..|s| - 1];
      LeadingZerosValue(k, s[..|s| - 1]);
    }
  }

  lemma {:induction false} ZerosValue(k: nat)
    ensures DigitsValue(Zeros(k)) == 0
  {
    if k > 0 {
      assert Zeros(k)[..k - 1] == Zeros(k - 1);
      ZerosValue(k - 1);
    }
  }

  /** `f"{n:0{width}d}"` for a natural number: the numeral of `n`, padded on
      the left with zeros up to `width` characters. */
  function ZeroPad(n: nat, width: nat): string
  {
    var d := NatToString(n);
    Zeros(if |d| < width then width - |d| else 0) + d
  }

  /** A padded numeral is all digits, exactly `width` long when `n` fits,
      and it denotes `n`. */
  lemma ZeroPadShape(n: nat, width: nat)
    ensures IsDigits(ZeroPad(n, width))
    ensures |ZeroPad(n, width)| >= width
    ensures |NatToString(n)| <= width ==> |ZeroPad(n, width)| == width
    ensures DigitsValue(ZeroPad(n, width)) == n
  {
    var d := NatToString(n);
    var k := if |d| < width then width - |d| else 0;
    LeadingZerosValue(k, d);
    NatToStringValue(n);
  }

  /** `f"{n:0{width}d}"` for any integer: a minus sign, then the zero-padded
      magnitude filling the rest of the width. */
  function FormatInt(n: int, width: nat): string
  {
    if n >= 0 then ZeroPad(n, width) else "-" + ZeroPad(-n, if width > 0 then width - 1 else 0)
  }

  /** `int(s)` on text: surrounding white space, an optional sign and at least
      one ASCII digit; anything else is the `ValueError` (None). */
  function ParseInt(s: string): Option<int>
  {
    var t := Strip(s);
    if t != [] && (t[0] == '+' || t[0] == '-') then
      if IsDigits(t[1..]) then
        Some(if t[0] == '-' then -(DigitsValue(t[1..]) as int) else DigitsValue(t[1..]))
      else None
    else if IsDigits(t) then Some(DigitsValue(t))
    else None
  }

  /** A text without a minus sign never parses to a negative number. */
  lemma ParseIntNoMinus(s: string)
    requires '-' !in s
    ensures ParseInt(s).Some? ==> ParseInt(s).value >= 0
  {
    StripEnds(s);
  }

  /** A zero-padded numeral parses back to its number. */
  lemma ParseZeroPad(n: nat, width: nat)
    ensures ParseInt(ZeroPad(n, width)) == Some(n)
  {
    var z := ZeroPad(n, width);
    ZeroPadShape(n, width);
    DigitsStripToSelf(z);
    assert IsDigit(z[0]);
  }

  /** No digit is white space. */
  lemma DigitNotSpace(c: char)
    requires IsDigit(c)
    ensures !IsSpace(c)
  {
  }

  /** A white-space character is not a digit. */
  lemma SpaceNotDigit(c: char)
    requires IsSpace(c)
    ensures !IsDigit(c)
  {
  }

  /** A run of digits has nothing to strip. */
  lemma DigitsStripToSelf(s: string)
    requires forall i :: 0 <= i < |s| ==> IsDigit(s[i])
    ensures Strip(s) == s
  {
    forall i | 0 <= i < |s|
      ensures !IsSpace(s[i])
    {
      DigitNotSpace(s[i]);
    }
    BlankNone(s);
  }

  /** A string with no white space strips to itself. */
  lemma BlankNone(s: string)
    requires forall i :: 0 <= i < |s| ==> !IsSpace(s[i])
    ensures Strip(s) == s
  {
    assert StripLeft(s) == s by {
      if s != [] { assert !IsSpace(s[0]); }
    }
  }

  // ---------------------------------------------------------------------
  // URLs

  function StartsWith(s: string, prefix: string): bool
  {
    |prefix| <= |s| && s[..|prefix|] == prefix
  }

  /** The request schemas' `HttpUrl` check, approximated: at most 2083
      characters, no white space, the scheme `http://` or `https://`, and
      at least one character after it, the first of which is not '/'. */
  predicate IsHttpUrl(s: string)
  {
    |s| <= 2083
    && (forall i :: 0 <= i < |s| ==> !IsSpace(s[i]))
    && exists scheme :: scheme in {"http://", "https://"} && StartsWith(s, scheme)
         && |s| > |scheme| && s[|scheme|] != '/'
  }
}
