/** The handful of JavaScript string built-ins that the screens rely on:
    String.prototype.trim, padStart(2, '0'), String(n) for integers, parseInt,
    split('/').pop(), replace(/"/g, ''), replace(/\D/g, '') and toLowerCase
    for ASCII letters. Strings are sequences of characters. */
module JsText {
  import opened Options

  // ---------------------------------------------------------------------------
  // Whitespace and trim

  /** The characters String.prototype.trim removes: the WhiteSpace and
      LineTerminator code points of ECMAScript (section 12.2 and 12.3 of ECMA-262). */
  predicate IsSpace(c: char) {
    || c == ' ' || c == '\t' || c == '\n' || c == '\r'
    || c == '\U{000B}' || c == '\U{000C}' || c == '\U{00A0}' || c == '\U{1680}'
    || ('\U{2000}' <= c <= '\U{200A}')
    || c == '\U{2028}' || c == '\U{2029}' || c == '\U{202F}' || c == '\U{205F}'
    || c == '\U{3000}' || c == '\U{FEFF}'
  }

  /** A string is blank when `s.trim()` is the empty string (JavaScript: falsy). */
  predicate Blank(s: string) {
    forall i :: 0 <= i < |s| ==> IsSpace(s[i])
  }

  /** `s.trimStart()`: the suffix left after dropping leading whitespace. */
  function TrimStart(s: string): (r: string)
    ensures |r| <= |s| && r == s[|s| - |r|..]
    ensures r != [] ==> !IsSpace(r[0])
  {
    if s != [] && IsSpace(s[0]) then TrimStart(s[1..]) else s
  }

  /** Only whitespace is dropped by TrimStart. */
  lemma {:induction false} TrimStartDropsSpaces(s: string)
    ensures forall i :: 0 <= i < |s| - |TrimStart(s)| ==> IsSpace(s[i])
    decreases |s|
  {
    if s != [] && IsSpace(s[0]) {
      TrimStartDropsSpaces(s[1..]);
      forall i | 1 <= i < |s| - |TrimStart(s)| ensures IsSpace(s[i]) {
        assert s[i] == s[1..][i - 1];
      }
    }
  }

  /** `s.trimEnd()`: the prefix left after dropping trailing whitespace. */
  function TrimEnd(s: string): (r: string)
    ensures |r| <= |s| && r == s[..|r|]
    ensures r != [] ==> !IsSpace(r[|r| - 1])
  {
    if s != [] && IsSpace(s[|s| - 1]) then TrimEnd(s[..|s| - 1]) else s
  }

  /** Only whitespace is dropped by TrimEnd. */
  lemma {:induction false} TrimEndDropsSpaces(s: string)
    ensures forall i :: |TrimEnd(s)| <= i < |s| ==> IsSpace(s[i])
    decreases |s|
  {
    if s != [] && IsSpace(s[|s| - 1]) {
      TrimEndDropsSpaces(s[..|s| - 1]);
      forall i | |TrimEnd(s)| <= i < |s| - 1 ensures IsSpace(s[i]) {
        assert s[i] == s[..|s| - 1][i];
      }
    }
  }

  /** `s.trim()`: the longest infix of `s` that neither starts nor ends with
      whitespace, found after dropping only whitespace on either side. */
  function Trim(s: string): (r: string)
    ensures r == [] <==> Blank(s)
    ensures r != [] ==> !IsSpace(r[0]) && !IsSpace(r[|r| - 1])
    ensures |r| <= |s|
  {
    var t := TrimStart(s);
    var r := TrimEnd(t);
    assert r == [] ==> Blank(s) by {
      if r == [] {
        TrimStartDropsSpaces(s);
        TrimEndDropsSpaces(t);
        forall i | 0 <= i < |s| ensures IsSpace(s[i]) {
          if i >= |s| - |t| { assert s[i] == t[i - (|s| - |t|)]; }
        }
      }
    }
    r
  }

  /** `r` is what is left of `s` once a blank prefix of length `k` and a
      blank suffix are cut off. */
  predicate CoreAt(s: string, r: string, k: nat) {
    k + |r| <= |s| && r == s[k..k + |r|] && Blank(s[..k]) && Blank(s[k + |r|..])
  }

  /** The trimmed text is an infix of the text with only blanks around it. */
  lemma TrimIsCore(s: string)
    ensures exists k: nat :: CoreAt(s, Trim(s), k)
  {
    var t := TrimStart(s);
    var r := Trim(s);
    var k := |s| - |t|;
    TrimStartDropsSpaces(s);
    TrimEndDropsSpaces(t);
    assert t == s[k..];
    assert r == s[k..k + |r|];
    assert s[k + |r|..] == t[|r|..];
    assert CoreAt(s, r, k);
  }

  /** Neither the first nor the last character is a blank. */
  predicate NoBlankEnds(r: string) {
    r != [] ==> !IsSpace(r[0]) && !IsSpace(r[|r| - 1])
  }

  /** A core with no blank at either end is empty exactly when the text is blank. */
  lemma CoreEmptyIffBlank(s: string, r: string, k: nat)
    requires CoreAt(s, r, k) && NoBlankEnds(r)
    ensures r == [] <==> Blank(s)
  {
    if r == [] {
      assert s == s[..k] + s[k..];
      BlankConcat(s[..k], s[k..]);
    } else {
      assert s[k] == r[0];
    }
  }

  /** Two cores of one text with no blank at either end are the same. */
  lemma CoreUnique(s: string, r1: string, k1: nat, r2: string, k2: nat)
    requires CoreAt(s, r1, k1) && NoBlankEnds(r1)
    requires CoreAt(s, r2, k2) && NoBlankEnds(r2)
    ensures r1 == r2
  {
    CoreEmptyIffBlank(s, r1, k1);
    CoreEmptyIffBlank(s, r2, k2);
    if r1 != [] {
      var e1, e2 := k1 + |r1|, k2 + |r2|;
      assert s[k1] == r1[0] && s[e1 - 1] == r1[|r1| - 1];
      assert s[k2] == r2[0] && s[e2 - 1] == r2[|r2| - 1];
      SameFirstNonBlank(s, k1, k2);
      SameLastNonBlank(s, e1, e2);
    }
  }

  /** Only one infix with blanks around it neither starts nor ends with a
      blank: the trimmed text. */
  lemma CoreIsTrim(s: string, r: string, k: nat)
    requires CoreAt(s, r, k) && NoBlankEnds(r)
    ensures r == Trim(s)
  {
    TrimIsCore(s);
    var k0: nat :| CoreAt(s, Trim(s), k0);
    CoreUnique(s, r, k, Trim(s), k0);
  }

  /** Blank texts joined are blank. */
  lemma BlankConcat(a: string, b: string)
    requires Blank(a) && Blank(b)
    ensures Blank(a + b)
  {
    forall i | 0 <= i < |a + b| ensures IsSpace((a + b)[i]) {
      if i >= |a| { assert (a + b)[i] == b[i - |a|]; }
    }
  }

  /** Two positions each preceded only by blanks and not blank themselves are
      the same position. */
  lemma SameFirstNonBlank(s: string, k: nat, k0: nat)
    requires k < |s| && k0 < |s|
    requires Blank(s[..k]) && Blank(s[..k0]) && !IsSpace(s[k]) && !IsSpace(s[k0])
    ensures k == k0
  {
    assert forall i :: 0 <= i < k ==> IsSpace(s[i]) by {
      forall i | 0 <= i < k ensures IsSpace(s[i]) { assert s[i] == s[..k][i]; }
    }
    assert forall i :: 0 <= i < k0 ==> IsSpace(s[i]) by {
      forall i | 0 <= i < k0 ensures IsSpace(s[i]) { assert s[i] == s[..k0][i]; }
    }
  }

  /** Two ends each followed only by blanks and not ending on a blank are
      the same end. */
  lemma SameLastNonBlank(s: string, e: nat, e0: nat)
    requires 1 <= e <= |s| && 1 <= e0 <= |s|
    requires Blank(s[e..]) && Blank(s[e0..]) && !IsSpace(s[e - 1]) && !IsSpace(s[e0 - 1])
    ensures e == e0
  {
    assert forall i :: e <= i < |s| ==> IsSpace(s[i]) by {
      forall i | e <= i < |s| ensures IsSpace(s[i]) { assert s[i] == s[e..][i - e]; }
    }
    assert forall i :: e0 <= i < |s| ==> IsSpace(s[i]) by {
      forall i | e0 <= i < |s| ensures IsSpace(s[i]) { assert s[i] == s[e0..][i - e0]; }
    }
  }

  /** Trimming twice is trimming once. */
  lemma TrimIdempotent(s: string)
    ensures Trim(Trim(s)) == Trim(s)
  {
    var r := Trim(s);
    if r != [] {
      assert TrimStart(r) == r;
      assert TrimEnd(r) == r;
    }
  }

  // ---------------------------------------------------------------------------
  // Padding

  /** `s.padStart(2, '0')`: zeros are prepended until the length is two;
      longer strings are left as they are. */
  function PadStart2(s: string): (r: string)
    ensures |r| == if |s| >= 2 then |s| else 2
    ensures r[|r| - |s|..] == s
    ensures forall i :: 0 <= i < |r| - |s| ==> r[i] == '0'
  {
    if |s| >= 2 then s else if |s| == 1 then "0" + s else "00"
  }

  // ---------------------------------------------------------------------------
  // Decimal text

  predicate IsDigit(c: char) {
    '0' <= c <= '9'
  }

  predicate AllDigits(s: string) {
    forall i :: 0 <= i < |s| ==> IsDigit(s[i])
  }

  function DigitChar(d: nat): (c: char)
    requires d < 10
    ensures IsDigit(c) && c as int - '0' as int == d
  {
    (d + '0' as int) as char
  }

  /** The value of a string of decimal digits (the empty string has value 0). */
  function DigitsValue(s: string): nat
    requires AllDigits(s)
  {
    if s == [] then 0 else DigitsValue(s[..|s| - 1]) * 10 + (s[|s| - 1] as int - '0' as int)
  }

  /** `String(n)` for a non-negative integer: decimal digits without leading zeros. */
  function NatToString(n: nat): (r: string)
    ensures |r| >= 1 && AllDigits(r)
    ensures (|r| == 1) == (n < 10)
    ensures |r| > 1 ==> r[0] != '0'
  {
    if n < 10 then [DigitChar(n)] else NatToString(n / 10) + [DigitChar(n % 10)]
  }

  /** `String(i)` for any integer: a minus sign before the digits of a negative one. */
  function IntToText(i: int): (r: string)
    ensures r != [] && (i < 0 <==> r[0] == '-')
  {
    if i < 0 then "-" + NatToString(-i) else NatToString(i)
  }

  /** The text of a number, `NaN` standing for parseInt's failure. */
  function NumberText(n: Option<int>): (r: string)
    ensures r != []
    ensures n.None? <==> r == "NaN"
  {
    match n
    case Some(v) => IntToText(v)
    case None => "NaN"
  }

  /** Reading back the digits of String(n) gives n. */
  lemma {:induction false} NatToStringValue(n: nat)
    ensures DigitsValue(NatToString(n)) == n
  {
    if n >= 10 {
      var s := NatToString(n);
      assert s[..|s| - 1] == NatToString(n / 10);
      NatToStringValue(n / 10);
    }
  }

  /** A leading zero does not change the value of a digit string. */
  lemma {:induction false} LeadingZeroValue(s: string)
    requires AllDigits(s)
    ensures AllDigits("0" + s) && DigitsValue("0" + s) == DigitsValue(s)
  {
    var z := "0" + s;
    assert AllDigits(z) by {
      forall i | 0 <= i < |z| ensures IsDigit(z[i]) {
        if i > 0 { assert z[i] == s[i - 1]; }
      }
    }
    if s != [] {
      assert z[..|z| - 1] == "0" + s[..|s| - 1];
      LeadingZeroValue(s[..|s| - 1]);
    }
  }

  /** Zero-padding keeps a digit string's value. */
  lemma PadStart2Value(s: string)
    requires AllDigits(s)
    ensures AllDigits(PadStart2(s)) && DigitsValue(PadStart2(s)) == DigitsValue(s)
  {
    if |s| == 1 {
      LeadingZeroValue(s);
    } else if |s| == 0 {
      assert DigitsValue("0") == 0;
      LeadingZeroValue("0");
      assert "0" + "0" == "00";
    }
  }

  /** Exactly two digits denoting `v`: how month and day appear in an ISO date. */
  predicate TwoDigitsOf(s: string, v: nat) {
    |s| == 2 && AllDigits(s) && DigitsValue(s) == v
  }

  /** For 1 <= n <= 99, `String(n).padStart(2, '0')` is the two-digit form of n. */
  lemma PaddedNumberIsTwoDigits(n: nat)
    requires 1 <= n <= 99
    ensures TwoDigitsOf(PadStart2(NatToString(n)), n)
  {
    NatToStringValue(n);
    PadStart2Value(NatToString(n));
  }

  /** `year + '-' + mm + '-' + dd` with mm and dd the two-digit forms of month and day. */
  predicate IsIsoDateOf(r: string, year: string, month: nat, day: nat) {
    && |r| == |year| + 6
    && r[..|year|] == year
    && r[|year|] == '-' && r[|year| + 3] == '-'
    && TwoDigitsOf(r[|year| + 1..|year| + 3], month)
    && TwoDigitsOf(r[|year| + 4..], day)
  }

  /** Joining a year with two two-digit parts gives an ISO date of those values. */
  lemma IsoDateJoin(year: string, mm: string, dd: string, month: nat, day: nat)
    requires TwoDigitsOf(mm, month) && TwoDigitsOf(dd, day)
    ensures IsIsoDateOf(year + "-" + mm + "-" + dd, year, month, day)
  {
    var r := year + "-" + mm + "-" + dd;
    assert r[..|year|] == year;
    assert r[|year| + 1..|year| + 3] == mm;
    assert r[|year| + 4..] == dd;
  }

  // ---------------------------------------------------------------------------
  // parseInt

  predicate IsHexDigit(c: char) {
    IsDigit(c) || 'a' <= c <= 'f' || 'A' <= c <= 'F'
  }

  function HexDigitValue(c: char): nat
    requires IsHexDigit(c)
  {
    if IsDigit(c) then c as int - '0' as int
    else if 'a' <= c <= 'f' then c as int - 'a' as int + 10
    else c as int - 'A' as int + 10
  }

  /** Length of the longest prefix of `s` made of digits of radix 10 or 16. */
  function DigitPrefixLength(s: string, hex: bool): (n: nat)
    ensures n <= |s|
    ensures forall i :: 0 <= i < n ==> (if hex then IsHexDigit(s[i]) else IsDigit(s[i]))
    ensures n < |s| ==> !(if hex then IsHexDigit(s[n]) else IsDigit(s[n]))
  {
    if s != [] && (if hex then IsHexDigit(s[0]) else IsDigit(s[0]))
    then 1 + DigitPrefixLength(s[1..], hex)
    else 0
  }

  /** The value of a run of digits in radix 10 or 16. */
  function RadixValue(s: string, hex: bool): nat
    requires forall i :: 0 <= i < |s| ==> (if hex then IsHexDigit(s[i]) else IsDigit(s[i]))
  {
    if s == [] then 0
    else RadixValue(s[..|s| - 1], hex) * (if hex then 16 else 10) + HexDigitValue(s[|s| - 1])
  }

  /** The digits part of parseInt after the sign: a `0x`/`0X` prefix switches
      to radix 16, then the longest run of digits is read; None when there is none. */
  function ParseUnsigned(u: string): Option<nat> {
    var hex := |u| >= 2 && u[0] == '0' && (u[1] == 'x' || u[1] == 'X');
    var w := if hex then u[2..] else u;
    var n := DigitPrefixLength(w, hex);
    if n == 0 then None else Some(RadixValue(w[..n], hex))
  }

  /** parseInt after the leading whitespace: one '-' or '+' sign, then the
      digits as in ParseUnsigned. -0 is 0. */
  function ParseSigned(t: string): Option<int> {
    var negative := t != [] && t[0] == '-';
    var u := if t != [] && (t[0] == '-' || t[0] == '+') then t[1..] else t;
    match ParseUnsigned(u)
    case None => None
    case Some(v) => var x: int := v; Some(if negative then -x else x)
  }

  /** `parseInt(s)` with no radix (section 19.2.5 of ECMA-262): leading
      whitespace is skipped, then a signed run of digits is read; None stands
      for NaN (no digits at all). Precision loss beyond 2^53 is not modelled. */
  function ParseInt(s: string): (r: Option<int>)
    ensures s == [] ==> r == None
  {
    ParseSigned(TrimStart(s))
  }

  /** Decimal digits are read back by RadixValue exactly as by DigitsValue. */
  lemma {:induction false} RadixValueDecimal(s: string)
    requires AllDigits(s)
    ensures RadixValue(s, false) == DigitsValue(s)
  {
    if s != [] {
      RadixValueDecimal(s[..|s| - 1]);
    }
  }

  /** A non-empty run of decimal digits is read whole, as its decimal value. */
  lemma ParseUnsignedDigits(d: string)
    requires d != [] && AllDigits(d)
    ensures ParseUnsigned(d) == Some(DigitsValue(d))
  {
    DigitsRunLength(d);
    assert d[..|d|] == d;
    RadixValueDecimal(d);
  }

  /** A digit string is not trimmed and carries no sign. */
  lemma ParseIntOfDigits(d: string)
    requires d != [] && AllDigits(d)
    ensures ParseInt(d) == Some(DigitsValue(d) as int)
  {
    assert IsDigit(d[0]);
    assert !IsSpace(d[0]);
    assert TrimStart(d) == d;
    ParseUnsignedDigits(d);
  }

  /** parseInt reads back String(n) for every non-negative integer n. */
  lemma ParseIntOfNatToString(n: nat)
    ensures ParseInt(NatToString(n)) == Some(n as int)
  {
    NatToStringValue(n);
    ParseIntOfDigits(NatToString(n));
  }

  lemma {:induction false} DigitsRunLength(s: string)
    requires AllDigits(s)
    ensures DigitPrefixLength(s, false) == |s|
  {
    if s != [] {
      DigitsRunLength(s[1..]);
    }
  }

  // ---------------------------------------------------------------------------
  // Path segments and character filters

  /** `s.split('/').pop()`: the text after the last '/', or all of `s` when
      it has none. */
  function LastSegment(s: string): (r: string)
    ensures |r| <= |s| && r == s[|s| - |r|..]
    ensures '/' !in r
    ensures |r| < |s| ==> s[|s| - |r| - 1] == '/'
  {
    if s == [] then []
    else if s[|s| - 1] == '/' then []
    else LastSegment(s[..|s| - 1]) + [s[|s| - 1]]
  }

  /** The last segment after a '/' is exactly what follows it when that
      tail holds no further '/'. */
  lemma LastSegmentAfterSlash(prefix: string, tail: string)
    requires '/' !in tail
    ensures LastSegment(prefix + "/" + tail) == tail
  {
    var s := prefix + "/" + tail;
    assert s[|s| - |tail|..] == tail;
    assert s[|s| - |tail| - 1] == '/';
  }

  /** `s.replace(/x/g, '')` for a single character x. */
  function RemoveAll(s: string, x: char): (r: string)
    ensures x !in r
    ensures forall c :: c != x ==> multiset(r)[c] == multiset(s)[c]
    ensures x !in s ==> r == s
  {
    if s == [] then []
    else
      assert s == [s[0]] + s[1..];
      (if s[0] == x then [] else [s[0]]) + RemoveAll(s[1..], x)
  }

  /** Removal distributes over concatenation: the characters that stay keep
      their order. */
  lemma {:induction false} RemoveAllConcat(a: string, b: string, x: char)
    ensures RemoveAll(a + b, x) == RemoveAll(a, x) + RemoveAll(b, x)
    decreases |a|
  {
    if a != [] {
      assert (a + b)[1..] == a[1..] + b;
      RemoveAllConcat(a[1..], b, x);
    } else {
      assert a + b == b;
    }
  }

  /** `s.replace(/\D/g, '')`: only the ASCII digits, in order. */
  function DigitsOnly(s: string): (r: string)
    ensures AllDigits(r)
    ensures AllDigits(s) ==> r == s
  {
    if s == [] then []
    else (if IsDigit(s[0]) then [s[0]] else []) + DigitsOnly(s[1..])
  }

  /** Every digit of the text is kept as often as it occurs, and nothing else. */
  lemma {:induction false} DigitsOnlyCounts(s: string)
    ensures forall c :: multiset(DigitsOnly(s))[c] == if IsDigit(c) then multiset(s)[c] else 0
    decreases |s|
  {
    if s != [] {
      assert s == [s[0]] + s[1..];
      DigitsOnlyCounts(s[1..]);
    }
  }

  /** The digit filter distributes over concatenation: the digits that stay
      keep their order. */
  lemma {:induction false} DigitsOnlyConcat(a: string, b: string)
    ensures DigitsOnly(a + b) == DigitsOnly(a) + DigitsOnly(b)
    decreases |a|
  {
    if a != [] {
      assert (a + b)[1..] == a[1..] + b;
      DigitsOnlyConcat(a[1..], b);
    } else {
      assert a + b == b;
    }
  }

  // ---------------------------------------------------------------------------
  // Case

  function LowerChar(c: char): char {
    if 'A' <= c <= 'Z' then (c as int + 32) as char else c
  }

  /** `s.toLowerCase()` restricted to ASCII letters. For comparisons against an
      all-lower-case ASCII word it agrees with the full Unicode mapping: no
      other code point lower-cases to a single ASCII letter except U+212A
      (to 'k'), and U+0130 lower-cases to two code points. */
  function LowerAscii(s: string): (r: string)
    ensures |r| == |s|
    ensures forall i :: 0 <= i < |s| ==> r[i] == LowerChar(s[i])
  {
    seq(|s|, i requires 0 <= i < |s| => LowerChar(s[i]))
  }

  /** Two strings that differ only in the case of ASCII letters. */
  predicate SameIgnoringCase(s: string, t: string) {
    |s| == |t| && forall i :: 0 <= i < |s| ==> LowerChar(s[i]) == LowerChar(t[i])
  }
}
