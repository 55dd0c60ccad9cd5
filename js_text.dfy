/** The JavaScript string and number operations the client relies on,
    stated on `seq<char>` with the semantics of the ECMAScript standard:
    the relational `<` on strings, `trim`, `startsWith`, `includes`,
    `substring`, `parseFloat` and `Number.prototype.toString`. */
module JsText {
  import opened Basics

  // ---------------------------------------------------------------------
  // The relational operator `<` on strings (section 7.2.13 of ECMA-262,
  // IsLessThan): code unit by code unit, a proper prefix is smaller.
  // ---------------------------------------------------------------------

  predicate StrLess(a: string, b: string)
  {
    if a == [] then b != []
    else if b == [] then false
    else if a[0] != b[0] then a[0] < b[0]
    else StrLess(a[1..], b[1..])
  }

  lemma {:induction false} StrLessIrreflexive(a: string)
    ensures !StrLess(a, a)
  {
    if a != [] {
      StrLessIrreflexive(a[1..]);
    }
  }

  lemma {:induction false} StrLessTransitive(a: string, b: string, c: string)
    requires StrLess(a, b) && StrLess(b, c)
    ensures StrLess(a, c)
  {
    if a != [] && b != [] && c != [] && a[0] == b[0] && b[0] == c[0] {
      StrLessTransitive(a[1..], b[1..], c[1..]);
    }
  }

  /** Exactly one of `a < b`, `a == b`, `b < a` holds. */
  lemma {:induction false} StrLessTrichotomy(a: string, b: string)
    ensures StrLess(a, b) || a == b || StrLess(b, a)
    ensures !(StrLess(a, b) && StrLess(b, a))
  {
    if a != [] && b != [] && a[0] == b[0] {
      StrLessTrichotomy(a[1..], b[1..]);
      assert a == [a[0]] + a[1..] && b == [b[0]] + b[1..];
    }
  }

  /** Comparing two strings that start with equally long parts compares
      those parts first and the rest only when the parts are equal. */
  lemma {:induction false} StrLessConcat(a1: string, a2: string, b1: string, b2: string)
    requires |a1| == |b1|
    ensures StrLess(a1 + a2, b1 + b2) <==> StrLess(a1, b1) || (a1 == b1 && StrLess(a2, b2))
  {
    if a1 != [] {
      assert (a1 + a2)[1..] == a1[1..] + a2;
      assert (b1 + b2)[1..] == b1[1..] + b2;
      StrLessConcat(a1[1..], a2, b1[1..], b2);
      if a1[0] == b1[0] && a1[1..] == b1[1..] {
        assert a1 == [a1[0]] + a1[1..] && b1 == [b1[0]] + b1[1..];
      }
    } else {
      assert a1 + a2 == a2 && b1 + b2 == b2;
    }
  }

  // ---------------------------------------------------------------------
  // Digits and fixed-width decimal text
  // ---------------------------------------------------------------------

  predicate IsDigit(c: char)
  {
    '0' <= c <= '9'
  }

  function DigitChar(d: nat): (c: char)
    requires d < 10
    ensures IsDigit(c)
  {
    ['0', '1', '2', '3', '4', '5', '6', '7', '8', '9'][d]
  }

  function DigitValue(c: char): (d: nat)
    requires IsDigit(c)
    ensures d < 10
  {
    (c as int - '0' as int) as nat
  }

  lemma DigitRoundTrip(d: nat)
    requires d < 10
    ensures DigitValue(DigitChar(d)) == d
  {
  }

  /** `DigitChar` is order-preserving, so comparing digit characters
      compares their values. */
  lemma DigitCharOrder(d: nat, e: nat)
    requires d < 10 && e < 10
    ensures DigitChar(d) < DigitChar(e) <==> d < e
    ensures DigitChar(d) == DigitChar(e) <==> d == e
  {
  }

  function Pow10(k: nat): (p: nat)
    ensures p >= 1
  {
    if k == 0 then 1 else 10 * Pow10(k - 1)
  }

  /** `n` written with exactly `width` decimal digits, zero-padded on the
      left (the digits of `n % 10^width`). */
  function Padded(n: nat, width: nat): (s: string)
    ensures |s| == width
    ensures forall i :: 0 <= i < |s| ==> IsDigit(s[i])
  {
    if width == 0 then "" else Padded(n / 10, width - 1) + [DigitChar(n % 10)]
  }

  /** For numbers that fit the width, the lexicographic order of their
      zero-padded texts is the numeric order. */
  lemma {:induction false} PaddedOrder(x: nat, y: nat, width: nat)
    requires x < Pow10(width) && y < Pow10(width)
    ensures StrLess(Padded(x, width), Padded(y, width)) <==> x < y
    ensures Padded(x, width) == Padded(y, width) <==> x == y
  {
    if width > 0 {
      PaddedOrder(x / 10, y / 10, width - 1);
      StrLessConcat(Padded(x / 10, width - 1), [DigitChar(x % 10)], Padded(y / 10, width - 1), [DigitChar(y % 10)]);
      DigitCharOrder(x % 10, y % 10);
      var px, py := Padded(x, width), Padded(y, width);
      if px == py {
        assert px[..width - 1] == Padded(x / 10, width - 1);
        assert py[..width - 1] == Padded(y / 10, width - 1);
        assert px[width - 1] == DigitChar(x % 10) && py[width - 1] == DigitChar(y % 10);
      }
    }
  }

  // ---------------------------------------------------------------------
  // White space and String.prototype.trim (section 22.1.3.32 of ECMA-262:
  // it strips WhiteSpace and LineTerminator code points from both ends)
  // ---------------------------------------------------------------------

  predicate IsSpace(c: char)
  {
    || c == '\t' || c == '\n' || c == '\U{B}' || c == '\U{C}' || c == '\r' || c == ' '
    || c == '\U{A0}' || c == '\U{1680}' || ('\U{2000}' <= c <= '\U{200A}')
    || c == '\U{2028}' || c == '\U{2029}' || c == '\U{202F}' || c == '\U{205F}'
    || c == '\U{3000}' || c == '\U{FEFF}'
  }

  predicate AllSpace(s: string)
  {
    forall i :: 0 <= i < |s| ==> IsSpace(s[i])
  }

  /** `s` without its leading white space. */
  function TrimStart(s: string): (r: string)
    ensures |r| <= |s| && r == s[|s| - |r|..]
    ensures AllSpace(s[..|s| - |r|])
    ensures r == [] || !IsSpace(r[0])
  {
    if s != [] && IsSpace(s[0]) then
      var r := TrimStart(s[1..]);
      assert s[..|s| - |r|] == [s[0]] + s[1..][..|s[1..]| - |r|];
      r
    else s
  }

  /** `s` without its trailing white space. */
  function TrimEnd(s: string): (r: string)
    ensures |r| <= |s| && r == s[..|r|]
    ensures AllSpace(s[|r|..])
    ensures r == [] || !IsSpace(r[|r| - 1])
  {
    if s != [] && IsSpace(s[|s| - 1]) then
      var r := TrimEnd(s[..|s| - 1]);
      assert s[|r|..] == s[..|s| - 1][|r|..] + [s[|s| - 1]];
      r
    else s
  }

  /** `s.trim()` */
  function Trim(s: string): string
  {
    TrimEnd(TrimStart(s))
  }

  /** `!s.trim()` holds exactly for the strings made only of white space
      (the empty string included). */
  lemma TrimEmptyIffBlank(s: string)
    ensures Trim(s) == "" <==> AllSpace(s)
  {
  }

  // ---------------------------------------------------------------------
  // startsWith, includes, substring
  // ---------------------------------------------------------------------

  /** `s.startsWith(p)` */
  predicate StartsWith(s: string, p: string)
  {
    |p| <= |s| && s[..|p|] == p
  }

  /** `s.includes(sub)` */
  predicate Includes(s: string, sub: string)
  {
    StartsWith(s, sub) || (s != [] && Includes(s[1..], sub))
  }

  /** No string includes a longer one. */
  lemma {:induction false} IncludesNoLonger(s: string, sub: string)
    ensures Includes(s, sub) ==> |sub| <= |s|
  {
    if s != [] {
      IncludesNoLonger(s[1..], sub);
    }
  }

  /** A string includes every string it is built around. */
  lemma {:induction false} IncludesInfix(a: string, sub: string, b: string)
    ensures Includes(a + sub + b, sub)
  {
    if a == [] {
      assert a + sub + b == sub + b;
      assert (sub + b)[..|sub|] == sub;
    } else {
      IncludesInfix(a[1..], sub, b);
      assert (a + sub + b)[1..] == a[1..] + sub + b;
    }
  }

  /** `s.substring(start, end)`: both bounds are clamped into
      `[0, s.length]` and swapped when the start is past the end. */
  function Substring(s: string, start: int, end: int): (r: string)
    ensures |r| <= |s|
    ensures 0 <= start <= end <= |s| ==> r == s[start..end]
    ensures 0 <= end <= start <= |s| ==> r == s[end..start]
  {
    var a := if start < 0 then 0 else if start > |s| then |s| else start;
    var b := if end < 0 then 0 else if end > |s| then |s| else end;
    if a <= b then s[a..b] else s[b..a]
  }

  /** `substring` treats its two indices alike: they may be given in either
      order, a negative one counts as 0 and one past the end as the
      length. */
  lemma SubstringClamps(s: string, start: int, end: int)
    ensures Substring(s, start, end) == Substring(s, end, start)
    ensures start < 0 ==> Substring(s, start, end) == Substring(s, 0, end)
    ensures end > |s| ==> Substring(s, start, end) == Substring(s, start, |s|)
  {
  }

  /** The card excerpt `s.length > limit ? s.substring(0, limit) + '...' : s`. */
  function Truncate(s: string, limit: nat): (r: string)
    ensures |s| <= limit ==> r == s
    ensures |s| > limit ==> |r| == limit + 3 && StartsWith(r, s[..limit]) && r[limit..] == "..."
  {
    if |s| > limit then Substring(s, 0, limit) + "..." else s
  }

  /** Truncating an excerpt again changes nothing. */
  lemma TruncateIdempotent(s: string, limit: nat)
    ensures Truncate(Truncate(s, limit), limit) == Truncate(s, limit)
  {
    var r := Truncate(s, limit);
    if |s| > limit {
      assert r[..limit] == s[..limit];
    }
  }

  /** Short strings are shown in full and long ones keep their first
      `limit` characters; in both cases the excerpt is at most three
      characters longer than the limit and never longer than needed. */
  lemma TruncateShape(s: string, limit: nat)
    ensures |Truncate(s, limit)| <= limit + 3
    ensures |s| > limit ==> |Truncate(s, limit)| <= |s| + 2
    ensures StartsWith(Truncate(s, limit), if |s| <= limit then s else s[..limit])
  {
  }

  // ---------------------------------------------------------------------
  // Decimal text of numbers: Number.prototype.toString (section 6.1.6.1.20
  // of ECMA-262) and parseFloat (section 19.2.4)
  // ---------------------------------------------------------------------

  /** The decimal digits of a natural number, without leading zeros. */
  function NatText(n: nat): (s: string)
    ensures |s| >= 1
    ensures forall i :: 0 <= i < |s| ==> IsDigit(s[i])
    decreases n
  {
    if n < 10 then [DigitChar(n)] else NatText(n / 10) + [DigitChar(n % 10)]
  }

  /** The text of an integer: an optional minus sign and its digits. */
  function IntText(n: int): string
  {
    if n < 0 then "-" + NatText(-n) else NatText(n)
  }

  /** Up to `fuel` decimal digits of a fraction in [0, 1), stopping as soon
      as the remaining fraction is zero. */
  function FractionDigits(f: real, fuel: nat): (s: string)
    requires 0.0 <= f < 1.0
    ensures |s| <= fuel
    decreases fuel
  {
    if fuel == 0 || f == 0.0 then ""
    else
      var d := (f * 10.0).Floor;
      [DigitChar(d as nat)] + FractionDigits(f * 10.0 - d as real, fuel - 1)
  }

  /** `x.toString()`: sign, integral digits and, for a value that is not
      whole, a point followed by its fractional digits (at most 20). */
  function NumberText(x: real): string
  {
    var a := if x < 0.0 then -x else x;
    var whole := a.Floor;
    var frac := a - whole as real;
    (if x < 0.0 then "-" else "") + NatText(whole)
      + (if frac == 0.0 then "" else "." + FractionDigits(frac, 20))
  }

  /** The number of leading decimal digits of `s`. */
  function LeadingDigits(s: string): (n: nat)
    ensures n <= |s|
    ensures forall i :: 0 <= i < n ==> IsDigit(s[i])
    ensures n < |s| ==> !IsDigit(s[n])
  {
    if s != [] && IsDigit(s[0]) then 1 + LeadingDigits(s[1..]) else 0
  }

  /** The value of a string of decimal digits. */
  function DigitsValue(s: string): nat
    requires forall i :: 0 <= i < |s| ==> IsDigit(s[i])
  {
    if s == [] then 0 else 10 * DigitsValue(s[..|s| - 1]) + DigitValue(s[|s| - 1])
  }

  /** The longest prefix of `s` of the form `digits [. digits]` with at
      least one digit, read as a number; `None` (NaN) when there is none. */
  function UnsignedDecimal(s: string): Option<real>
  {
    var i := LeadingDigits(s);
    if i < |s| && s[i] == '.' then
      var j := LeadingDigits(s[i + 1..]);
      if i == 0 && j == 0 then None
      else Some(DigitsValue(s[..i]) as real + DigitsValue(s[i + 1..i + 1 + j]) as real / Pow10(j) as real)
    else if i == 0 then None
    else Some(DigitsValue(s[..i]) as real)
  }

  /** `parseFloat(s)`: leading white space is skipped, an optional sign is
      read, then the longest decimal prefix; `None` stands for NaN. */
  function ParseFloat(s: string): Option<real>
  {
    var t := TrimStart(s);
    if t != [] && (t[0] == '-' || t[0] == '+') then
      match UnsignedDecimal(t[1..])
      case None => None
      case Some(v) => Some(if t[0] == '-' then -v else v)
    else UnsignedDecimal(t)
  }

  lemma {:induction false} NatTextValue(n: nat)
    ensures DigitsValue(NatText(n)) == n
    decreases n
  {
    var s := NatText(n);
    if n >= 10 {
      NatTextValue(n / 10);
      assert s[..|s| - 1] == NatText(n / 10);
    }
  }

  lemma AllDigitsLeading(s: string)
    requires forall i :: 0 <= i < |s| ==> IsDigit(s[i])
    ensures LeadingDigits(s) == |s|
  {
    if s != [] {
      AllDigitsLeading(s[1..]);
    }
  }

  /** The text of a whole number parses back to that number. */
  lemma ParseNatText(n: nat)
    ensures UnsignedDecimal(NatText(n)) == Some(n as real)
  {
    var s := NatText(n);
    AllDigitsLeading(s);
    NatTextValue(n);
    assert s[..|s|] == s;
  }

  /** For a whole number, `toString` prints its integer text. */
  lemma NumberTextWhole(n: int)
    ensures NumberText(n as real) == IntText(n)
  {
    var x := n as real;
    var m: nat := if n < 0 then -n else n;
    var a := if x < 0.0 then -x else x;
    assert a == m as real;
    WholeFloor(m);
  }

  /** A whole number is its own floor and has no fraction. */
  lemma WholeFloor(m: nat)
    ensures (m as real).Floor == m
    ensures m as real - (m as real).Floor as real == 0.0
  {
  }

  /** `parseFloat` reads back the text of any integer. */
  lemma ParseIntText(n: int)
    ensures ParseFloat(IntText(n)) == Some(n as real)
  {
    var m: nat := if n < 0 then -n else n;
    var digits := NatText(m);
    ParseNatText(m);
    assert IsDigit(digits[0]);
    var s := IntText(n);
    if n < 0 {
      assert s == "-" + digits;
      assert s[1..] == digits;
      TrimStartKeeps(s);
    } else {
      assert s == digits;
      TrimStartKeeps(s);
    }
  }

  /** A text that does not start with white space is its own `trimStart`. */
  lemma TrimStartKeeps(s: string)
    requires s != [] && !IsSpace(s[0])
    ensures TrimStart(s) == s
  {
  }

  /** What `toString` prints for a whole number, `parseFloat` reads back:
      a budget written into a form field and submitted unchanged keeps
      its value. */
  lemma ParseNumberText(n: int)
    ensures ParseFloat(NumberText(n as real)) == Some(n as real)
  {
    NumberTextWhole(n);
    ParseIntText(n);
  }
}
