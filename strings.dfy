/**
 * The JavaScript string operations the handlers rely on: `trim`, `toLowerCase`,
 * `startsWith`, `indexOf`, `split`, `join`, number-to-string conversion,
 * `parseInt`, and the global replacement of a literal marker followed by an
 * optional newline (`s.replace(/marker\n?/g, '')`).
 */
module Strings {
  import opened Wrappers

  /** The characters JavaScript's `trim` removes and the regex class `\s` matches. */
  predicate IsSpace(c: char) {
    || c == ' ' || c == '\t' || c == '\n' || c == '\r'
    || c == '\U{000B}' || c == '\U{000C}' || c == '\U{00A0}' || c == '\U{1680}'
    || ('\U{2000}' <= c <= '\U{200A}')
    || c == '\U{2028}' || c == '\U{2029}' || c == '\U{202F}' || c == '\U{205F}'
    || c == '\U{3000}' || c == '\U{FEFF}'
  }

  predicate AllSpace(s: string) {
    forall i :: 0 <= i < |s| ==> IsSpace(s[i])
  }

  /** Removes leading white space: the result is the suffix that starts at the first non-space. */
  function TrimStart(s: string): (r: string)
    ensures |r| <= |s| && r == s[|s| - |r|..]
    ensures AllSpace(s[..|s| - |r|])
    ensures r == [] || !IsSpace(r[0])
  {
    if s != [] && IsSpace(s[0]) then TrimStart(s[1..]) else s
  }

  /** Removes trailing white space: the result is the prefix that ends at the last non-space. */
  function TrimEnd(s: string): (r: string)
    ensures |r| <= |s| && r == s[..|r|]
    ensures AllSpace(s[|r|..])
    ensures r == [] || !IsSpace(r[|r| - 1])
  {
    if s != [] && IsSpace(s[|s| - 1]) then
      var r := TrimEnd(s[..|s| - 1]);
      assert s[|r|..] == s[..|s| - 1][|r|..] + [s[|s| - 1]];
      r
    else s
  }

  /** `s.trim()`. */
  function Trim(s: string): string {
    TrimEnd(TrimStart(s))
  }

  /** Trim keeps a contiguous slice of its input and drops only white space around it. */
  lemma TrimIsMaximalSlice(s: string)
    ensures exists i, j :: 0 <= i <= j <= |s| && Trim(s) == s[i..j] && AllSpace(s[..i]) && AllSpace(s[j..])
  {
    var t := TrimStart(s);
    var e := TrimEnd(t);
    var i := |s| - |t|;
    var j := i + |e|;
    assert s[j..] == t[|e|..];
    assert Trim(s) == s[i..j];
  }

  /** No white space is left at either end of a trimmed string. */
  lemma TrimEnds(s: string)
    ensures Trim(s) == [] || (!IsSpace(Trim(s)[0]) && !IsSpace(Trim(s)[|Trim(s)| - 1]))
  {
    var t := TrimStart(s);
    var e := TrimEnd(t);
    if e != [] {
      assert e[0] == t[0];
    }
  }

  /** Trimming twice is trimming once. */
  lemma TrimIdempotent(s: string)
    ensures Trim(Trim(s)) == Trim(s)
  {
    var r := Trim(s);
    TrimEnds(s);
    if r != [] {
      assert TrimStart(r) == r;
      assert TrimEnd(r) == r;
    }
  }

  /** The capitals `toLowerCase` maps one step up: Ă, Đ, Ĩ, Ũ, Ơ, Ư and the even code points from Ạ to Ỹ. */
  predicate StepCapital(c: char) {
    || c == '\U{0102}' || c == '\U{0110}' || c == '\U{0128}' || c == '\U{0168}' || c == '\U{01A0}' || c == '\U{01AF}'
    || ('\U{1EA0}' <= c <= '\U{1EF8}' && (c as int) % 2 == 0)
  }

  /**
   * The lower-case form of an ASCII, Latin-1 or Vietnamese capital: A-Z and
   * À-Þ (except ×) move by 0x20, the others listed by `StepCapital` by one.
   */
  function LowerChar(c: char): (r: char)
    ensures r != c ==> !IsSpace(c) && !IsSpace(r)
  {
    if 'A' <= c <= 'Z' || ('\U{00C0}' <= c <= '\U{00DE}' && c != '\U{00D7}') then (c as int + 0x20) as char
    else if StepCapital(c) then (c as int + 1) as char
    else c
  }

  /** Lower-casing a lower-case form changes nothing. */
  lemma LowerCharIdempotent(c: char)
    ensures LowerChar(LowerChar(c)) == LowerChar(c)
  {
  }

  /** `s.toLowerCase()` for the ASCII, Latin-1 and Vietnamese capitals. */
  function ToLower(s: string): (r: string)
    ensures |r| == |s|
  {
    seq(|s|, i requires 0 <= i < |s| => LowerChar(s[i]))
  }

  /** `s.toLowerCase().trim()`: how the handlers normalise e-mail addresses and ingredient names. */
  function LowerTrim(s: string): string {
    Trim(ToLower(s))
  }

  lemma ToLowerOfSlice(s: string, i: int, j: int)
    requires 0 <= i <= j <= |s|
    ensures ToLower(s[i..j]) == ToLower(s)[i..j]
  {
  }

  /** Normalising a normalised string changes nothing, so a stored key looks itself up. */
  lemma LowerTrimIdempotent(s: string)
    ensures LowerTrim(LowerTrim(s)) == LowerTrim(s)
  {
    var l := ToLower(s);
    forall k | 0 <= k < |l|
      ensures LowerChar(l[k]) == l[k]
    {
      LowerCharIdempotent(s[k]);
    }
    assert ToLower(l) == l;
    TrimIsMaximalSlice(l);
    var i, j :| 0 <= i <= j <= |l| && Trim(l) == l[i..j];
    ToLowerOfSlice(l, i, j);
    assert ToLower(Trim(l)) == Trim(l);
    TrimIdempotent(l);
  }

  /** Whether `c` lies outside the Basic Multilingual Plane, so JavaScript stores it as a surrogate pair. */
  predicate Astral(c: char) {
    c as int >= 0x1_0000
  }

  /**
   * `s.length` in JavaScript: the number of UTF-16 code units, one per character of
   * the Basic Multilingual Plane and two per character beyond it.
   */
  function Utf16Length(s: string): (r: nat)
    ensures |s| <= r <= 2 * |s|
    ensures r == |s| <==> forall i :: 0 <= i < |s| ==> !Astral(s[i])
  {
    if s == [] then 0
    else (if Astral(s[0]) then 2 else 1) + Utf16Length(s[1..])
  }

  /** `s.startsWith(p)`. */
  predicate StartsWith(s: string, p: string) {
    p <= s
  }

  predicate OccursAt(s: string, sub: string, i: int) {
    0 <= i && i + |sub| <= |s| && s[i..i + |sub|] == sub
  }

  lemma OccursShift(s: string, sub: string, m: int)
    requires 1 <= m && s != []
    ensures OccursAt(s, sub, m) <==> OccursAt(s[1..], sub, m - 1)
  {
    if m + |sub| <= |s| {
      var a := s[m..m + |sub|];
      var b := s[1..][m - 1..m - 1 + |sub|];
      forall k | 0 <= k < |sub|
        ensures a[k] == b[k]
      {
        assert a[k] == s[m + k] && b[k] == s[1..][m - 1 + k];
      }
      assert a == b;
    }
  }

  /** `s.indexOf(sub)`: the first position where `sub` occurs, or None for -1. */
  function IndexOf(s: string, sub: string): (r: Option<nat>)
    ensures r.Some? ==> OccursAt(s, sub, r.value) && forall k :: 0 <= k < r.value ==> !OccursAt(s, sub, k)
    ensures r.None? ==> forall k :: 0 <= k <= |s| ==> !OccursAt(s, sub, k)
    decreases |s|
  {
    if |s| < |sub| then None
    else if sub <= s then Some(0)
    else
      match IndexOf(s[1..], sub)
      case None =>
        assert forall m :: 1 <= m <= |s| ==> !OccursAt(s, sub, m) by {
          forall m | 1 <= m <= |s| ensures !OccursAt(s, sub, m) {
            OccursShift(s, sub, m);
          }
        }
        None
      case Some(k) =>
        assert forall m :: 1 <= m <= k ==> !OccursAt(s, sub, m) by {
          forall m | 1 <= m <= k ensures !OccursAt(s, sub, m) {
            OccursShift(s, sub, m);
          }
        }
        Some(k + 1)
  }

  /** `s.includes(sub)`. */
  predicate Contains(s: string, sub: string) {
    IndexOf(s, sub).Some?
  }

  /** `s.split(c)` for a one-character separator. */
  function Split(s: string, c: char): (parts: seq<string>)
    ensures |parts| >= 1
    ensures forall i :: 0 <= i < |parts| ==> c !in parts[i]
    decreases |s|
  {
    match IndexOf(s, [c])
    case None =>
      assert forall k :: 0 <= k < |s| ==> s[k] != c by {
        forall k | 0 <= k < |s| ensures s[k] != c {
          assert !OccursAt(s, [c], k);
          assert s[k..k + 1] == [s[k]];
        }
      }
      [s]
    case Some(i) =>
      assert c !in s[..i] by {
        forall k | 0 <= k < i ensures s[k] != c {
          assert !OccursAt(s, [c], k);
          assert s[k..k + 1] == [s[k]];
        }
      }
      [s[..i]] + Split(s[i + 1..], c)
  }

  /** `s.indexOf(c)` for one character: the first index holding c, or None when there is none. */
  lemma IndexOfChar(s: string, c: char)
    ensures IndexOf(s, [c]).None? <==> c !in s
    ensures IndexOf(s, [c]).Some? ==> var i := IndexOf(s, [c]).value;
              i < |s| && s[i] == c && forall k :: 0 <= k < i ==> s[k] != c
  {
    match IndexOf(s, [c])
    case None =>
      forall k | 0 <= k < |s| ensures s[k] != c {
        assert !OccursAt(s, [c], k);
        assert s[k..k + 1] == [s[k]];
      }
    case Some(i) =>
      assert s[i..i + 1] == [s[i]];
      forall k | 0 <= k < i ensures s[k] != c {
        assert !OccursAt(s, [c], k);
        assert s[k..k + 1] == [s[k]];
      }
  }

  /** The first occurrence of c in `a + [c] + b` is in a, or it is the c between them. */
  lemma IndexOfCharAppend(a: string, b: string, c: char)
    ensures IndexOf(a + [c] + b, [c]) == if c in a then IndexOf(a, [c]) else Some(|a|)
  {
    var s := a + [c] + b;
    IndexOfChar(s, c);
    IndexOfChar(a, c);
    assert s[|a|] == c;
    var i := IndexOf(s, [c]).value;
    assert forall k :: 0 <= k < |a| ==> s[k] == a[k];
    if c in a {
      var j := IndexOf(a, [c]).value;
      assert s[j] == c;
      assert i < |a| ==> a[i] == c;
    }
  }

  /** Splitting text that ends in c followed by a c-free tail gives the tail as the last part. */
  lemma {:induction false} SplitSnoc(a: string, b: string, c: char)
    requires c !in b
    ensures Split(a + [c] + b, c) == Split(a, c) + [b]
    decreases |a|
  {
    var s := a + [c] + b;
    IndexOfCharAppend(a, b, c);
    IndexOfChar(a, c);
    if c in a {
      var i := IndexOf(a, [c]).value;
      SplitAtFirst(s, c, i);
      SplitAtFirst(a, c, i);
      assert s[..i] == a[..i];
      assert s[i + 1..] == a[i + 1..] + [c] + b;
      SplitSnoc(a[i + 1..], b, c);
    } else {
      SplitAtFirst(s, c, |a|);
      IndexOfChar(b, c);
      assert s[..|a|] == a;
      assert s[|a| + 1..] == b;
    }
  }

  /** Where c first occurs at i, the split is the text before i, then the split of the rest. */
  lemma SplitAtFirst(s: string, c: char, i: nat)
    requires IndexOf(s, [c]) == Some(i)
    ensures Split(s, c) == [s[..i]] + Split(s[i + 1..], c)
  {
  }

  /** Splitting text that starts with a c-free head and a c gives the head as the first part. */
  lemma SplitHead(a: string, b: string, c: char)
    requires c !in a
    ensures Split(a + [c] + b, c)[0] == a
    ensures Split(a, c) == [a]
  {
    IndexOfCharAppend(a, b, c);
    IndexOfChar(a, c);
    assert (a + [c] + b)[..|a|] == a;
  }

  /** `parts.join(sep)`. */
  function Join(parts: seq<string>, sep: string): string {
    if parts == [] then ""
    else if |parts| == 1 then parts[0]
    else parts[0] + sep + Join(parts[1..], sep)
  }

  /** Splitting on a character and joining with it gives back the original string. */
  lemma {:induction false} JoinSplit(s: string, c: char)
    ensures Join(Split(s, c), [c]) == s
    decreases |s|
  {
    match IndexOf(s, [c])
    case None =>
    case Some(i) =>
      assert s[i..i + 1] == [c];
      JoinSplit(s[i + 1..], c);
      assert s == s[..i] + [c] + s[i + 1..];
  }

  function Digit(d: nat): char
    requires d < 10
  {
    "0123456789"[d]
  }

  /** Decimal rendering of a natural number, as `String(n)` prints it. */
  function NatToString(n: nat): (r: string)
    ensures |r| >= 1
    ensures forall i :: 0 <= i < |r| ==> '0' <= r[i] <= '9'
    ensures n >= 10 ==> r[0] != '0'
  {
    if n < 10 then [Digit(n)] else NatToString(n / 10) + [Digit(n % 10)]
  }

  /** `String(n)` for an integer. */
  function IntToString(n: int): string {
    if n < 0 then "-" + NatToString(-n) else NatToString(n)
  }

  /** 10^21: from this magnitude on, `String(n)` writes a number in exponent notation. */
  const ExponentThreshold: int := 1_000_000_000_000_000_000_000

  /** `s` without its trailing '0' characters. */
  function DropTrailingZeros(s: string): (r: string)
    ensures r <= s
    ensures r == [] || r[|r| - 1] != '0'
    ensures forall i :: |r| <= i < |s| ==> s[i] == '0'
  {
    if s != [] && s[|s| - 1] == '0' then DropTrailingZeros(s[..|s| - 1]) else s
  }

  /**
   * `String(n)` for n >= 10^21: the first digit, a point and the other
   * significant digits when there are any, then `e+` and the power of ten, as
   * in `5e+21` or `1.25e+22`.
   */
  function ExponentForm(n: nat): string
    requires n >= ExponentThreshold
  {
    var digits := NatToString(n);
    [digits[0]] + (Fraction(digits) + "e+" + NatToString(|digits| - 1))
  }

  /** The point and the significant digits after the first one; empty when there are none. */
  function Fraction(digits: string): (r: string)
    ensures r == [] || r[0] == '.'
  {
    var significant := DropTrailingZeros(digits);
    if |significant| > 1 then "." + significant[1..] else ""
  }

  /** The absolute value. */
  function Magnitude(n: int): nat {
    if n < 0 then -n else n
  }

  /** `String(n)` for a number with an integer value: a minus sign when negative, then its magnitude. */
  function NumberToString(n: int): string {
    if n < 0 then "-" + MagnitudeToString(-n) else MagnitudeToString(n)
  }

  /** The magnitude of a number: plain decimal below 10^21, exponent notation from there on. */
  function MagnitudeToString(m: nat): string {
    if m >= ExponentThreshold then ExponentForm(m) else NatToString(m)
  }

  /** The most significant decimal digit of n. */
  function LeadingDigit(n: nat): (r: nat)
    ensures n < 10 ==> r == n
    ensures n > 0 ==> 1 <= r <= 9
  {
    if n < 10 then n else LeadingDigit(n / 10)
  }

  function Pow10(k: nat): nat {
    if k == 0 then 1 else 10 * Pow10(k - 1)
  }

  lemma {:induction false} Pow10Add(a: nat, b: nat)
    ensures Pow10(a + b) == Pow10(a) * Pow10(b)
  {
    if a > 0 {
      Pow10Add(a - 1, b);
    }
  }

  lemma ThresholdIsPow10()
    ensures Pow10(21) == ExponentThreshold
  {
    assert Pow10(7) == 10_000_000;
    Pow10Add(7, 7);
    Pow10Add(14, 7);
  }

  /** A digit followed by k zeros has that digit as its leading digit. */
  lemma {:induction false} LeadingDigitOfScaled(d: nat, k: nat)
    requires 1 <= d <= 9
    ensures LeadingDigit(d * Pow10(k)) == d
  {
    if k > 0 {
      LeadingDigitOfScaled(d, k - 1);
      var p := Pow10(k - 1);
      var m := d * p;
      assert m >= 1;
      assert Pow10(k) == 10 * p;
      MulTen(d, p);
      assert (m * 10) / 10 == m;
    }
  }

  lemma MulTen(d: nat, p: nat)
    ensures d * (10 * p) == (d * p) * 10
  {
  }

  function DigitValue(c: char): nat {
    if '0' <= c <= '9' then c as nat - '0' as nat
    else if 'a' <= c <= 'z' then c as nat - 'a' as nat + 10
    else if 'A' <= c <= 'Z' then c as nat - 'A' as nat + 10
    else 36
  }

  /** The longest prefix of `s` made of digits of the given radix. */
  function LeadingDigits(s: string, radix: nat): (r: string)
    ensures r <= s
    ensures forall i :: 0 <= i < |r| ==> DigitValue(r[i]) < radix
    ensures |r| < |s| ==> DigitValue(s[|r|]) >= radix
  {
    if s != [] && DigitValue(s[0]) < radix then [s[0]] + LeadingDigits(s[1..], radix) else []
  }

  function DigitsValue(ds: string, radix: nat): nat {
    if ds == [] then 0
    else DigitsValue(ds[..|ds| - 1], radix) * radix + (if DigitValue(ds[|ds| - 1]) < radix then DigitValue(ds[|ds| - 1]) else 0)
  }

  /** The value of the longest digit prefix of `b` in the given radix, or None if there is none. */
  function ParseDigits(b: string, radix: nat): Option<nat> {
    var ds := LeadingDigits(b, radix);
    if ds == [] then None else Some(DigitsValue(ds, radix))
  }

  /** Digits after the sign: hexadecimal after `0x`/`0X`, decimal otherwise. */
  function ParseUnsigned(u: string): Option<nat> {
    if |u| >= 2 && u[0] == '0' && (u[1] == 'x' || u[1] == 'X') then ParseDigits(u[2..], 16)
    else ParseDigits(u, 10)
  }

  function ParseSigned(t: string): Option<int> {
    if t != [] && t[0] == '-' then
      match ParseUnsigned(t[1..])
      case None => None
      case Some(v) => Some(-(v as int))
    else if t != [] && t[0] == '+' then
      match ParseUnsigned(t[1..])
      case None => None
      case Some(v) => Some(v)
    else
      match ParseUnsigned(t)
      case None => None
      case Some(v) => Some(v)
  }

  /**
   * `parseInt(s)` with no radix: skip leading white space, take an optional sign,
   * read hexadecimal after `0x`/`0X` and decimal otherwise. None stands for NaN.
   */
  function ParseInt(s: string): Option<int> {
    ParseSigned(TrimStart(s))
  }

  lemma {:induction false} DigitsValueOfNatToString(n: nat)
    ensures DigitsValue(NatToString(n), 10) == n
  {
    var s := NatToString(n);
    if n >= 10 {
      var p := NatToString(n / 10);
      assert s == p + [Digit(n % 10)];
      assert s[..|s| - 1] == p;
      DigitValueOfDigit(n % 10);
      DigitsValueOfNatToString(n / 10);
      assert DigitsValue(s, 10) == DigitsValue(p, 10) * 10 + n % 10;
    } else {
      DigitValueOfDigit(n);
      assert s[..|s| - 1] == [];
    }
  }

  lemma DigitValueOfDigit(d: nat)
    requires d < 10
    ensures DigitValue(Digit(d)) == d
  {
    assert Digit(d) == "0123456789"[d];
    assert "0123456789"[d] as nat == '0' as nat + d by {
      if d == 0 {} else if d == 1 {} else if d == 2 {} else if d == 3 {} else if d == 4 {}
      else if d == 5 {} else if d == 6 {} else if d == 7 {} else if d == 8 {} else {}
    }
  }

  lemma ParseUnsignedOfNatToString(n: nat)
    ensures ParseUnsigned(NatToString(n)) == Some(n)
  {
    var d := NatToString(n);
    assert |d| >= 2 ==> d[0] != '0';
    LeadingAllDigits(d, 10);
    DigitsValueOfNatToString(n);
  }

  lemma TrimStartNoLeadingSpace(s: string)
    requires s != [] && !IsSpace(s[0])
    ensures TrimStart(s) == s
  {
  }

  /** `parseInt(String(n)) === n` for every integer n. */
  lemma ParseIntOfIntToString(n: int)
    ensures ParseInt(IntToString(n)) == Some(n)
  {
    if n < 0 {
      ParseUnsignedOfNatToString(-n);
      ParseIntOfNegative(NatToString(-n), -n);
    } else {
      ParseUnsignedOfNatToString(n);
      ParseIntOfDigits(NatToString(n), n);
    }
  }

  /** The first character of the decimal rendering is the leading digit. */
  lemma {:induction false} FirstCharIsLeadingDigit(n: nat)
    ensures DigitValue(NatToString(n)[0]) == LeadingDigit(n)
  {
    if n < 10 {
      DigitValueOfDigit(n);
    } else {
      FirstCharIsLeadingDigit(n / 10);
      assert NatToString(n)[0] == NatToString(n / 10)[0];
    }
  }

  /** A digit followed by a character that is no decimal digit reads as that digit, with or without a minus sign. */
  lemma ParseIntOfSingleDigit(c: char, rest: string)
    requires '1' <= c <= '9' && rest != [] && DigitValue(rest[0]) >= 10
    ensures ParseInt([c] + rest) == Some(DigitValue(c))
    ensures ParseInt("-" + ([c] + rest)) == Some(-(DigitValue(c) as int))
  {
    SingleDigitUnsigned(c, rest);
    ParseIntOfDigits([c] + rest, DigitValue(c));
    ParseIntOfNegative([c] + rest, DigitValue(c));
  }

  lemma SingleDigitUnsigned(c: char, rest: string)
    requires '1' <= c <= '9' && rest != [] && DigitValue(rest[0]) >= 10
    ensures ([c] + rest)[0] == c
    ensures ParseUnsigned([c] + rest) == Some(DigitValue(c))
  {
    var s := [c] + rest;
    assert s[1..] == rest;
    assert LeadingDigits(s, 10) == [c];
    assert DigitsValue([c], 10) == DigitValue(c);
  }

  /** The exponent form starts with the leading digit, and a point or an `e` follows it. */
  lemma ExponentFormStart(n: nat)
    requires n >= ExponentThreshold
    ensures var s := ExponentForm(n);
            && |s| >= 2 && '1' <= s[0] <= '9' && DigitValue(s[0]) == LeadingDigit(n) && DigitValue(s[1]) >= 10
            && s == [s[0]] + s[1..]
  {
    ExponentFormHead(n);
    FirstCharIsLeadingDigit(n);
    var s := ExponentForm(n);
    assert s == [s[0]] + s[1..];
  }

  lemma ExponentFormHead(n: nat)
    requires n >= ExponentThreshold
    ensures |ExponentForm(n)| >= 2 && ExponentForm(n)[0] == NatToString(n)[0]
    ensures ExponentForm(n)[1] == '.' || ExponentForm(n)[1] == 'e'
  {
    var digits := NatToString(n);
    var fraction := Fraction(digits);
    var tail := fraction + "e+" + NatToString(|digits| - 1);
    assert tail[0] == (if fraction == [] then 'e' else '.');
  }

  /**
   * `parseInt` of the exponent form reads only its first digit, which a point
   * or an `e` ends: `parseInt(String(5e21))` is 5, and with a minus sign -5.
   */
  lemma ParseIntOfExponentForm(n: nat)
    requires n >= ExponentThreshold
    ensures ParseInt(ExponentForm(n)) == Some(LeadingDigit(n))
    ensures ParseInt("-" + ExponentForm(n)) == Some(-(LeadingDigit(n) as int))
  {
    var s := ExponentForm(n);
    ExponentFormStart(n);
    ParseIntOfSingleDigit(s[0], s[1..]);
  }

  /** `parseInt(String(n))` for a number with an integer value, in each of the three ranges. */
  lemma ParseIntOfNumberToString(n: int)
    ensures -ExponentThreshold < n < ExponentThreshold ==> ParseInt(NumberToString(n)) == Some(n)
    ensures n >= ExponentThreshold ==> ParseInt(NumberToString(n)) == Some(LeadingDigit(n))
    ensures n <= -ExponentThreshold ==> ParseInt(NumberToString(n)) == Some(-(LeadingDigit(Magnitude(n)) as int))
  {
    if n >= ExponentThreshold {
      ParseIntOfExponentForm(n);
    } else if n <= -ExponentThreshold {
      ParseIntOfNegativeExponentForm(Magnitude(n));
      assert n == -(Magnitude(n) as int);
    } else {
      assert NumberToString(n) == IntToString(n);
      ParseIntOfIntToString(n);
    }
  }

  /** Below 10^21 in magnitude `String(n)` is the plain decimal form. */
  lemma NumberToStringBelowThreshold(n: int)
    requires -ExponentThreshold < n < ExponentThreshold
    ensures NumberToString(n) == IntToString(n)
  {
  }

  /** A negative number of magnitude m >= 10^21 reads as minus the leading digit of m. */
  lemma ParseIntOfNegativeExponentForm(m: nat)
    requires m >= ExponentThreshold
    ensures ParseInt(NumberToString(-(m as int))) == Some(-(LeadingDigit(m) as int))
  {
    NegativeNumberToString(m);
    ExponentMagnitude(m);
    ParseIntOfExponentForm(m);
  }

  /** A negative number prints as a minus sign and its magnitude. */
  lemma NegativeNumberToString(m: nat)
    requires m > 0
    ensures NumberToString(-(m as int)) == "-" + MagnitudeToString(m)
  {
  }

  /** A magnitude of 10^21 or more prints in exponent notation. */
  lemma ExponentMagnitude(m: nat)
    requires m >= ExponentThreshold
    ensures MagnitudeToString(m) == ExponentForm(m)
  {
  }

  /** The value of a non-empty string of decimal digits; None for any other string. */
  function DecimalValue(u: string): Option<nat> {
    if u != [] && forall i :: 0 <= i < |u| ==> '0' <= u[i] <= '9' then Some(DigitsValue(u, 10)) else None
  }

  /**
   * `Number(s)` for the forms the model covers: after trimming white space,
   * blank text is 0 and a signed decimal integer is its value; anything else
   * is NaN, written None.
   */
  function StringToNumber(s: string): Option<int> {
    var t := Trim(s);
    if t == [] then Some(0)
    else if t[0] == '-' then
      match DecimalValue(t[1..])
      case None => None
      case Some(v) => Some(-(v as int))
    else if t[0] == '+' then
      match DecimalValue(t[1..])
      case None => None
      case Some(v) => Some(v)
    else
      match DecimalValue(t)
      case None => None
      case Some(v) => Some(v)
  }

  /** A string whose ends are not white space is its own trim. */
  lemma TrimOfSolidEnds(s: string)
    requires s != [] && !IsSpace(s[0]) && !IsSpace(s[|s| - 1])
    ensures Trim(s) == s
  {
    TrimStartNoLeadingSpace(s);
  }

  /** `Number(String(n))` is n: the conversion inverts the decimal rendering. */
  lemma StringToNumberOfIntToString(n: int)
    ensures StringToNumber(IntToString(n)) == Some(n)
  {
    if n < 0 {
      StringToNumberOfNegativeInt(n);
    } else {
      DigitsValueOfNatToString(n);
      StringToNumberOfUnsigned(NatToString(n));
    }
  }

  lemma StringToNumberOfNegativeInt(n: int)
    requires n < 0
    ensures StringToNumber(IntToString(n)) == Some(n)
  {
    NegativeIntToString(n);
    StringToNumberOfNegated(IntToString(n));
  }

  lemma NegativeIntToString(n: int)
    requires n < 0
    ensures var t := IntToString(n); |t| >= 2 && t[0] == '-' && (forall i :: 1 <= i < |t| ==> '0' <= t[i] <= '9')
    ensures DigitsValue(IntToString(n)[1..], 10) == -n
  {
    var t := IntToString(n);
    assert t[1..] == NatToString(-n);
    DigitsValueOfNatToString(-n);
  }

  /** A string of decimal digits converts to their value. */
  lemma StringToNumberOfUnsigned(d: string)
    requires d != [] && forall i :: 0 <= i < |d| ==> '0' <= d[i] <= '9'
    ensures StringToNumber(d) == Some(DigitsValue(d, 10) as int)
  {
    DigitIsNotSpace(d[0]);
    DigitIsNotSpace(d[|d| - 1]);
    TrimOfSolidEnds(d);
    assert DecimalValue(d) == Some(DigitsValue(d, 10));
  }

  /** A minus sign followed by decimal digits converts to the negated value of the digits. */
  lemma StringToNumberOfNegated(t: string)
    requires |t| >= 2 && t[0] == '-' && forall i :: 1 <= i < |t| ==> '0' <= t[i] <= '9'
    ensures StringToNumber(t) == Some(-(DigitsValue(t[1..], 10) as int))
  {
    DigitIsNotSpace(t[|t| - 1]);
    assert !IsSpace('-');
    TrimOfSolidEnds(t);
    assert DecimalValue(t[1..]) == Some(DigitsValue(t[1..], 10));
  }

  /** Text that starts with neither a sign nor a digit, and is not padded, converts to NaN. */
  lemma StringToNumberOfWord(t: string)
    requires t != [] && !IsSpace(t[0]) && !IsSpace(t[|t| - 1])
    requires t[0] != '-' && t[0] != '+' && !('0' <= t[0] <= '9')
    ensures StringToNumber(t) == None
  {
    TrimOfSolidEnds(t);
  }

  lemma DigitIsNotSpace(c: char)
    requires '0' <= c <= '9'
    ensures !IsSpace(c)
  {
  }

  /** A minus sign before a digit string negates what the digits read as. */
  lemma ParseIntOfNegative(d: string, m: nat)
    requires ParseUnsigned(d) == Some(m)
    ensures ParseInt("-" + d) == Some(-(m as int))
  {
    var s := "-" + d;
    assert s[0] == '-' && s[1..] == d;
    assert ParseSigned(s) == Some(-(m as int));
    TrimStartNoLeadingSpace(s);
  }

  /** A digit string is read without a sign. */
  lemma ParseIntOfDigits(d: string, m: nat)
    requires d != [] && '0' <= d[0] <= '9'
    requires ParseUnsigned(d) == Some(m)
    ensures ParseInt(d) == Some(m)
  {
    TrimStartNoLeadingSpace(d);
  }

  lemma {:induction false} LeadingAllDigits(s: string, radix: nat)
    requires forall i :: 0 <= i < |s| ==> DigitValue(s[i]) < radix
    ensures LeadingDigits(s, radix) == s
  {
    if s != [] {
      LeadingAllDigits(s[1..], radix);
    }
  }

  /**
   * `s.replace(/marker\n?/g, '')`: scanning from the left, every occurrence of
   * `marker` is removed together with one newline right after it, if any.
   */
  function StripMarker(s: string, marker: string): (r: string)
    requires marker != []
    ensures |r| <= |s|
    decreases |s|
  {
    if s == [] then []
    else if marker <= s then
      var rest := s[|marker|..];
      if rest != [] && rest[0] == '\n' then StripMarker(rest[1..], marker) else StripMarker(rest, marker)
    else [s[0]] + StripMarker(s[1..], marker)
  }

  /** Text that does not contain the marker's first character is left unchanged. */
  lemma {:induction false} StripMarkerWithoutMarker(s: string, marker: string)
    requires marker != [] && marker[0] !in s
    ensures StripMarker(s, marker) == s
    decreases |s|
  {
    if s != [] {
      assert !(marker <= s);
      StripMarkerWithoutMarker(s[1..], marker);
    }
  }

  /** Text free of the marker's first character passes through unchanged in front of the rest. */
  lemma {:induction false} StripMarkerPrefix(p: string, s: string, marker: string)
    requires marker != [] && marker[0] !in p
    ensures StripMarker(p + s, marker) == p + StripMarker(s, marker)
    decreases |p|
  {
    if p == [] {
      assert p + s == s;
    } else {
      var ps := p + s;
      assert ps[0] == p[0];
      assert !(marker <= ps);
      assert ps[1..] == p[1..] + s;
      StripMarkerPrefix(p[1..], s, marker);
      assert StripMarker(ps, marker) == [p[0]] + StripMarker(ps[1..], marker);
      assert [p[0]] + p[1..] == p;
    }
  }
}
