/**
 * The few JavaScript built-ins the application's rules lean on, stated over
 * Dafny values: a possibly-undefined value, the truthiness of a string,
 * ASCII `toLowerCase`, `includes`, `startsWith`, the default `Array.prototype.sort`
 * order of two strings, `Number.prototype.toString` on integers, `parseInt`
 * without a radix, and `advertisingImages?.[0]`.
 */
module Js {

  /** A value that may be missing. Where the code treats `null` and `undefined` alike (truthiness,
    * `?.`, `||`, `=== 'x'`), None stands for both; where it keeps them apart (a `Set` of
    * categories, `===` between two such values) the model uses a datatype with both. */
  datatype Option<T> = None | Some(value: T)

  /** `!!s` for a string that may be undefined: undefined and "" are falsy. */
  predicate Truthy(s: Option<string>)
  {
    s.Some? && s.value != ""
  }

  /** `a || b` for strings that may be undefined. */
  function Or(a: Option<string>, b: Option<string>): Option<string>
  {
    if Truthy(a) then a else b
  }

  // ---------------------------------------------------------------------------
  // Case folding and searching (ASCII only)
  // ---------------------------------------------------------------------------

  function LowerChar(c: char): (r: char)
    ensures 'A' <= c <= 'Z' ==> 'a' <= r <= 'z'
    ensures !('A' <= c <= 'Z') ==> r == c
  {
    if 'A' <= c <= 'Z' then (c as int - 'A' as int + 'a' as int) as char else c
  }

  /** `s.toLowerCase()` restricted to ASCII letters. */
  function Lower(s: string): (r: string)
    ensures |r| == |s|
    ensures forall i :: 0 <= i < |s| ==> r[i] == LowerChar(s[i])
  {
    seq(|s|, i requires 0 <= i < |s| => LowerChar(s[i]))
  }

  /** `hay.includes(needle)`: the needle occurs at some offset of the haystack. */
  predicate Includes(hay: string, needle: string)
    decreases |hay|
  {
    StartsWith(hay, needle) || (hay != [] && Includes(hay[1..], needle))
  }

  /** `s.startsWith(prefix)`. */
  predicate StartsWith(s: string, prefix: string)
  {
    |prefix| <= |s| && s[..|prefix|] == prefix
  }

  /** Lower-casing is idempotent, so a lower-cased query compared with a lower-cased name is case-blind. */
  lemma LowerIdempotent(s: string)
    ensures Lower(Lower(s)) == Lower(s)
  {
  }

  /** `images?.[0]`: the first element of a list that may be missing. */
  function FirstImage(images: Option<seq<string>>): (r: Option<string>)
    ensures r.Some? <==> images.Some? && images.value != []
    ensures r.Some? ==> r.value == images.value[0]
  {
    if images.Some? && images.value != [] then Some(images.value[0]) else None
  }

  // ---------------------------------------------------------------------------
  // The default sort order of strings
  // ---------------------------------------------------------------------------

  /** `a < b` on strings: lexicographic order on characters, a proper prefix first.
    * JavaScript compares UTF-16 code units while `char` here is a code point; the two orders
    * differ only between a character above U+FFFF and one in U+E000..U+FFFF. */
  predicate Less(a: string, b: string)
    decreases |a|
  {
    if a == [] then b != []
    else if b == [] then false
    else a[0] < b[0] || (a[0] == b[0] && Less(a[1..], b[1..]))
  }

  /** The string order is a strict total order: exactly one of `a == b`, `a < b`, `b < a` holds. */
  lemma {:induction false} LessTrichotomy(a: string, b: string)
    ensures a == b || Less(a, b) || Less(b, a)
    ensures !(Less(a, b) && Less(b, a))
    ensures !Less(a, a)
    decreases |a|
  {
    if a != [] {
      LessTrichotomy(a[1..], a[1..]);
      if b != [] {
        LessTrichotomy(a[1..], b[1..]);
        if a[0] == b[0] && a[1..] == b[1..] {
          assert a == [a[0]] + a[1..] && b == [b[0]] + b[1..];
        }
      }
    }
  }

  /** `[a, b].sort()`: the two strings in ascending order (the sort is stable). */
  function Sort2(a: string, b: string): (r: seq<string>)
    ensures |r| == 2 && multiset(r) == multiset{a, b}
    ensures !Less(r[1], r[0])
  {
    LessTrichotomy(a, b);
    if Less(b, a) then [b, a] else [a, b]
  }

  // ---------------------------------------------------------------------------
  // Integers as decimal text
  // ---------------------------------------------------------------------------

  predicate IsDigit(c: char)
  {
    '0' <= c <= '9'
  }

  function DigitChar(d: nat): (c: char)
    requires d < 10
    ensures IsDigit(c)
  {
    ('0' as int + d) as char
  }

  /** The digits of `n` in base ten, most significant first, without leading zeros. */
  function Digits(n: nat): (s: string)
    ensures s != [] && forall i :: 0 <= i < |s| ==> IsDigit(s[i])
    decreases n
  {
    if n < 10 then [DigitChar(n)] else Digits(n / 10) + [DigitChar(n % 10)]
  }

  /** `n` written in decimal, with a minus sign when negative. This is `String(n)` for an
    * integer-valued number below 10^21 in magnitude. */
  function IntToString(n: int): string
  {
    if n < 0 then "-" + Digits(-n) else Digits(n)
  }

  /** From this magnitude on, `String(n)` switches to exponent notation. */
  const ExponentFrom: nat := 1_000_000_000_000_000_000_000

  /** `s` without its trailing zeros. */
  function TrimZeros(s: string): (r: string)
    ensures |r| <= |s| && r == s[..|r|]
  {
    if s != [] && s[|s| - 1] == '0' then TrimZeros(s[..|s| - 1]) else s
  }

  /** What follows the leading digit `ds[0]` in exponent notation: the remaining significant
    * digits after a point, if any, then `e+` and the exponent. */
  function ExponentRest(ds: string): (r: string)
    requires ds != []
    ensures r != [] && (r[0] == '.' || r[0] == 'e')
  {
    var tail := TrimZeros(ds[1..]);
    (if tail == "" then "" else "." + tail) + "e+" + IntToString(|ds| - 1)
  }

  /** `String(n)` for an integer-valued number: plain decimal below 10^21 in magnitude,
    * exponent notation `d[.ddd]e+k` from 10^21 on. */
  function NumberToString(n: int): string
  {
    var m: nat := if n < 0 then -n else n;
    if m < ExponentFrom then IntToString(n)
    else
      var ds := Digits(m);
      (if n < 0 then "-" else "") + [ds[0]] + ExponentRest(ds)
  }

  /** The most significant decimal digit of `m`. */
  function LeadingDigit(m: nat): (d: nat)
    ensures d < 10
    ensures m > 0 ==> d > 0
  {
    if m < 10 then m else LeadingDigit(m / 10)
  }

  /** 10^k starts with the digit 1. */
  lemma {:induction false} LeadingDigitOfPower(k: nat)
    ensures LeadingDigit(Power10(k)) == 1
  {
    if k > 0 {
      LeadingDigitOfPower(k - 1);
      assert Power10(k) / 10 == Power10(k - 1);
    }
  }

  function Power10(k: nat): (p: nat)
    ensures p >= 1
  {
    if k == 0 then 1 else 10 * Power10(k - 1)
  }

  lemma ExponentFromIsPower()
    ensures ExponentFrom == Power10(21)
  {
    assert Power10(7) == 10_000_000;
    PowerSum(7, 7);
    PowerSum(14, 7);
  }

  lemma {:induction false} PowerSum(a: nat, b: nat)
    ensures Power10(a + b) == Power10(a) * Power10(b)
    decreases b
  {
    if b > 0 {
      PowerSum(a, b - 1);
      assert Power10(a + b) == 10 * Power10(a + b - 1);
    }
  }

  lemma {:induction false} LeadingDigitIsFirst(m: nat)
    ensures Digits(m)[0] == DigitChar(LeadingDigit(m))
    decreases m
  {
    if m >= 10 {
      LeadingDigitIsFirst(m / 10);
    }
  }

  /** The number of leading decimal digits of `s`. */
  function DigitRun(s: string): (k: nat)
    ensures k <= |s|
    ensures forall i :: 0 <= i < k ==> IsDigit(s[i])
    ensures k < |s| ==> !IsDigit(s[k])
  {
    if s == [] || !IsDigit(s[0]) then 0 else 1 + DigitRun(s[1..])
  }

  /** The value of a string of decimal digits. */
  function DigitsValue(s: string): nat
    requires forall i :: 0 <= i < |s| ==> IsDigit(s[i])
  {
    if s == [] then 0
    else
      assert IsDigit(s[|s| - 1]);
      10 * DigitsValue(s[..|s| - 1]) + (s[|s| - 1] as int - '0' as int)
  }

  /** The white space and line terminators `parseInt` skips before the number. */
  predicate IsJsSpace(c: char)
  {
    c as int in {9, 10, 11, 12, 13, 32, 160, 5760, 8232, 8233, 8239, 8287, 12288, 65279}
    || 8192 <= c as int <= 8202
  }

  /** `s` without its leading white space. */
  function TrimStart(s: string): (r: string)
    ensures |r| <= |s| && r == s[|s| - |r|..]
    ensures r != [] ==> !IsJsSpace(r[0])
    ensures forall i :: 0 <= i < |s| - |r| ==> IsJsSpace(s[i])
  {
    if s != [] && IsJsSpace(s[0]) then TrimStart(s[1..]) else s
  }

  predicate IsHexDigit(c: char)
  {
    IsDigit(c) || 'a' <= c <= 'f' || 'A' <= c <= 'F'
  }

  function HexDigitValue(c: char): (v: nat)
    requires IsHexDigit(c)
    ensures v < 16
  {
    if IsDigit(c) then c as int - '0' as int
    else if 'a' <= c <= 'f' then c as int - 'a' as int + 10
    else c as int - 'A' as int + 10
  }

  /** The number of leading hexadecimal digits of `s`. */
  function HexRun(s: string): (k: nat)
    ensures k <= |s|
    ensures forall i :: 0 <= i < k ==> IsHexDigit(s[i])
    ensures k < |s| ==> !IsHexDigit(s[k])
  {
    if s == [] || !IsHexDigit(s[0]) then 0 else 1 + HexRun(s[1..])
  }

  /** The value of a string of hexadecimal digits. */
  function HexValue(s: string): nat
    requires forall i :: 0 <= i < |s| ==> IsHexDigit(s[i])
  {
    if s == [] then 0
    else
      assert IsHexDigit(s[|s| - 1]);
      16 * HexValue(s[..|s| - 1]) + HexDigitValue(s[|s| - 1])
  }

  /** The number `parseInt` reads after the sign: a `0x`/`0X` prefix and hexadecimal digits,
    * or decimal digits; None when no digit follows. */
  function ReadMagnitude(body: string): Option<int>
  {
    if |body| >= 2 && body[0] == '0' && (body[1] == 'x' || body[1] == 'X') then
      var k := HexRun(body[2..]);
      if k == 0 then None else Some(HexValue(body[2..][..k]))
    else
      var k := DigitRun(body);
      if k == 0 then None else Some(DigitsValue(body[..k]))
  }

  /** `-v` after a minus sign, `v` otherwise. */
  function Signed(sign: string, v: int): int
  {
    if sign == "-" then -v else v
  }

  /** The sign and number `parseInt` reads from `t`, which starts after the white space. */
  function ParseSigned(t: string): Option<int>
  {
    var sign := if t != [] && (t[0] == '-' || t[0] == '+') then [t[0]] else "";
    var m := ReadMagnitude(t[|sign|..]);
    if m.None? then None else Some(Signed(sign, m.value))
  }

  /** `parseInt(s)` without a radix: leading white space is skipped, then an optional sign,
    * then a `0x`/`0X` prefix switches to base sixteen; the longest run of digits after
    * that is read, and no digit at all is NaN, here None. */
  function ParseInt(s: string): Option<int>
  {
    ParseSigned(TrimStart(s))
  }

  lemma {:induction false} DigitsValueOfDigits(n: nat)
    ensures DigitsValue(Digits(n)) == n
    decreases n
  {
    if n >= 10 {
      DigitsValueOfDigits(n / 10);
      var s := Digits(n);
      assert s[..|s| - 1] == Digits(n / 10);
    }
  }

  /** `parseInt` reads back every integer written by `IntToString`. */
  lemma {:induction false} ParseIntOfIntToString(n: int)
    ensures ParseInt(IntToString(n)) == Some(n)
  {
    var m: nat := if n < 0 then -n else n;
    var d := Digits(m);
    var sign := if n < 0 then "-" else "";
    assert IntToString(n) == "" + sign + d + "";
    assert ParseInt("" + sign + d + "") == Some(Signed(sign, DigitsValue(d))) by {
      ParseIntReadsDigits("", sign, d, "");
    }
    assert DigitsValue(d) == m by {
      DigitsValueOfDigits(m);
    }
  }

  /** `parseInt(ws + sign + d + rest)`, with `d` a run of decimal digits that `rest` does not
    * extend and that is not the `0x` prefix, is the signed value of `d`. */
  lemma {:induction false} ParseIntReadsDigits(ws: string, sign: string, d: string, rest: string)
    requires forall i :: 0 <= i < |ws| ==> IsJsSpace(ws[i])
    requires sign in {"", "+", "-"}
    requires d != [] && forall i :: 0 <= i < |d| ==> IsDigit(d[i])
    requires rest == [] || !IsDigit(rest[0])
    requires !(d == "0" && rest != [] && (rest[0] == 'x' || rest[0] == 'X'))
    ensures ParseInt(ws + sign + d + rest) == Some(Signed(sign, DigitsValue(d)))
  {
    assert ws + sign + d + rest == ws + (sign + (d + rest));
    ReadDecimal(d, rest);
    ParseSignedOf(sign, d + rest);
    TrimStartSkips(ws, sign + (d + rest));
  }

  /** `parseInt(ws + sign + "0x" + h + rest)`, with `h` a run of hexadecimal digits that
    * `rest` does not extend, is the signed value of `h` in base sixteen. */
  lemma {:induction false} ParseIntReadsHex(ws: string, sign: string, x: char, h: string, rest: string)
    requires forall i :: 0 <= i < |ws| ==> IsJsSpace(ws[i])
    requires sign in {"", "+", "-"} && x in {'x', 'X'}
    requires h != [] && forall i :: 0 <= i < |h| ==> IsHexDigit(h[i])
    requires rest == [] || !IsHexDigit(rest[0])
    ensures ParseInt(ws + sign + ['0', x] + h + rest) == Some(Signed(sign, HexValue(h)))
  {
    var body := ['0', x] + (h + rest);
    assert ws + sign + ['0', x] + h + rest == ws + (sign + body);
    assert body[2..] == h + rest;
    HexRunOf(h, rest);
    assert (h + rest)[..|h|] == h;
    assert ReadMagnitude(body) == Some(HexValue(h));
    ParseSignedOf(sign, body);
    TrimStartSkips(ws, sign + body);
  }

  lemma {:induction false} ReadDecimal(d: string, rest: string)
    requires d != [] && forall i :: 0 <= i < |d| ==> IsDigit(d[i])
    requires rest == [] || !IsDigit(rest[0])
    requires !(d == "0" && rest != [] && (rest[0] == 'x' || rest[0] == 'X'))
    ensures ReadMagnitude(d + rest) == Some(DigitsValue(d))
  {
    var body := d + rest;
    DigitRunOf(d, rest);
    assert body[..|d|] == d;
  }

  lemma {:induction false} ParseSignedOf(sign: string, body: string)
    requires sign in {"", "+", "-"}
    requires body != [] && body[0] != '-' && body[0] != '+'
    requires ReadMagnitude(body).Some?
    ensures ParseSigned(sign + body) == Some(Signed(sign, ReadMagnitude(body).value))
    ensures sign + body != [] && !IsJsSpace((sign + body)[0])
  {
    var t := sign + body;
    if sign == "" {
      assert t == body;
    } else {
      assert t[0] == sign[0];
      assert [t[0]] == sign;
      assert t[|sign|..] == body;
    }
  }

  /** A text that is all white space, or whose first character after the white space is
    * neither a digit nor a sign, holds no number: `parseInt` gives NaN. */
  lemma ParseIntNoDigits(s: string)
    requires TrimStart(s) == []
      || (!IsDigit(TrimStart(s)[0]) && TrimStart(s)[0] != '-' && TrimStart(s)[0] != '+')
    ensures ParseInt(s) == None
  {
    ParseSignedNoDigits(TrimStart(s));
  }

  lemma {:induction false} ParseSignedNoDigits(t: string)
    requires t == [] || (!IsDigit(t[0]) && t[0] != '-' && t[0] != '+')
    ensures ParseSigned(t) == None
  {
    if t != [] {
      assert t[|""|..] == t;
      assert DigitRun(t) == 0;
    }
    assert ReadMagnitude(t) == None;
  }

  /** From 10^21 on, `parseInt(String(n))` reads only the leading digit of `n` (with its sign):
    * the exponent notation stops the digits after the first one. */
  lemma {:induction false} ParseIntOfHugeNumber(n: int)
    requires n >= ExponentFrom || -n >= ExponentFrom
    ensures var d: int := LeadingDigit(if n < 0 then -n else n);
      ParseInt(NumberToString(n)) == Some(if n < 0 then -d else d)
  {
    var sign := if n < 0 then "-" else "";
    var m: nat := if n < 0 then -n else n;
    var ds := Digits(m);
    assert NumberToString(n) == "" + sign + [ds[0]] + ExponentRest(ds) by {
      HugeNumberText(n);
    }
    assert ParseInt("" + sign + [ds[0]] + ExponentRest(ds)) == Some(Signed(sign, LeadingDigit(m))) by {
      ParseExponentText(sign, m);
    }
    assert ParseInt(NumberToString(n)) == Some(Signed(sign, LeadingDigit(m)));
  }

  /** `parseInt` of an exponent-notation text reads the sign and the leading digit. */
  lemma {:induction false} ParseExponentText(sign: string, m: nat)
    requires sign == "" || sign == "-"
    ensures var ds := Digits(m);
      ParseInt("" + sign + [ds[0]] + ExponentRest(ds)) == Some(Signed(sign, LeadingDigit(m)))
  {
    var ds := Digits(m);
    var rest := ExponentRest(ds);
    assert ds[0] == DigitChar(LeadingDigit(m)) by {
      LeadingDigitIsFirst(m);
    }
    assert [ds[0]] != "0" || rest[0] == '.' || rest[0] == 'e';
    assert ParseInt("" + sign + [ds[0]] + rest) == Some(Signed(sign, DigitsValue([ds[0]]))) by {
      ParseIntReadsDigits("", sign, [ds[0]], rest);
    }
    assert DigitsValue([ds[0]]) == LeadingDigit(m) by {
      SingleDigitValue(ds[0]);
    }
  }

  lemma {:induction false} HugeNumberText(n: int)
    requires n >= ExponentFrom || -n >= ExponentFrom
    ensures var ds := Digits(if n < 0 then -n else n);
      NumberToString(n) == "" + (if n < 0 then "-" else "") + [ds[0]] + ExponentRest(ds)
  {
  }

  lemma {:induction false} SingleDigitValue(c: char)
    requires IsDigit(c)
    ensures DigitsValue([c]) == c as int - '0' as int
  {
    assert [c][..0] == [];
  }

  lemma {:induction false} TrimStartSkips(ws: string, t: string)
    requires forall i :: 0 <= i < |ws| ==> IsJsSpace(ws[i])
    requires t == [] || !IsJsSpace(t[0])
    ensures TrimStart(ws + t) == t
    decreases |ws|
  {
    if ws != [] {
      assert (ws + t)[1..] == ws[1..] + t;
      TrimStartSkips(ws[1..], t);
    } else {
      assert ws + t == t;
    }
  }

  lemma {:induction false} DigitRunOf(d: string, rest: string)
    requires forall i :: 0 <= i < |d| ==> IsDigit(d[i])
    requires rest == [] || !IsDigit(rest[0])
    ensures DigitRun(d + rest) == |d|
    decreases |d|
  {
    if d != [] {
      assert (d + rest)[1..] == d[1..] + rest;
      DigitRunOf(d[1..], rest);
    } else {
      assert d + rest == rest;
    }
  }

  lemma {:induction false} HexRunOf(h: string, rest: string)
    requires forall i :: 0 <= i < |h| ==> IsHexDigit(h[i])
    requires rest == [] || !IsHexDigit(rest[0])
    ensures HexRun(h + rest) == |h|
    decreases |h|
  {
    if h != [] {
      assert (h + rest)[1..] == h[1..] + rest;
      HexRunOf(h[1..], rest);
    } else {
      assert h + rest == rest;
    }
  }
}
