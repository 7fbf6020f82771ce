/** The JavaScript string built-ins the application relies on: `trim`, `length`
    (counted in UTF-16 code units), `toLowerCase`, `includes` and
    `parseInt(s, 10)`. Strings are sequences of Unicode code points. */
module JsText {

  /** An ECMAScript WhiteSpace or LineTerminator code point: TAB, LF, VT, FF,
      CR, ZWNBSP, the space separators (category Zs), LINE SEPARATOR and
      PARAGRAPH SEPARATOR. These are what `trim` removes and what `parseInt`
      skips before the number. */
  predicate IsWhiteSpace(c: char)
  {
    var n := c as int;
    || (0x09 <= n <= 0x0D)
    || n == 0x20 || n == 0xA0 || n == 0x1680
    || (0x2000 <= n <= 0x200A)
    || n == 0x2028 || n == 0x2029 || n == 0x202F || n == 0x205F
    || n == 0x3000 || n == 0xFEFF
  }

  /** `s` without its leading white space. */
  function TrimStart(s: string): (r: string)
    ensures |r| <= |s| && r == s[|s| - |r|..]
    ensures forall i :: 0 <= i < |s| - |r| ==> IsWhiteSpace(s[i])
    ensures r != [] ==> !IsWhiteSpace(r[0])
  {
    if s != [] && IsWhiteSpace(s[0]) then TrimStart(s[1..]) else s
  }

  /** `s` without its trailing white space. */
  function TrimEnd(s: string): (r: string)
    ensures |r| <= |s| && r == s[..|r|]
    ensures forall i :: |r| <= i < |s| ==> IsWhiteSpace(s[i])
    ensures r != [] ==> !IsWhiteSpace(r[|r| - 1])
  {
    if s != [] && IsWhiteSpace(s[|s| - 1]) then TrimEnd(s[..|s| - 1]) else s
  }

  /** `s.trim()` */
  function Trim(s: string): (r: string)
    ensures |r| <= |s|
    ensures r != [] ==> !IsWhiteSpace(r[0]) && !IsWhiteSpace(r[|r| - 1])
  {
    TrimEnd(TrimStart(s))
  }

  /** `r` is the slice of `s` at `i`, and everything of `s` before and after
      that slice is white space. */
  predicate StrippedAt(s: string, r: string, i: nat)
  {
    && i + |r| <= |s|
    && r == s[i..i + |r|]
    && (forall k :: 0 <= k < i ==> IsWhiteSpace(s[k]))
    && (forall k :: i + |r| <= k < |s| ==> IsWhiteSpace(s[k]))
  }

  /** Trimming leaves a string with no white space at either end, and removes
      nothing but white space. */
  lemma TrimIsTight(s: string)
    ensures exists i :: StrippedAt(s, Trim(s), i)
    ensures Includes(s, Trim(s))
    ensures Trim(s) != [] ==> !IsWhiteSpace(Trim(s)[0]) && !IsWhiteSpace(Trim(s)[|Trim(s)| - 1])
    ensures (forall i :: 0 <= i < |s| ==> IsWhiteSpace(s[i])) <==> Trim(s) == []
  {
    var t := TrimStart(s);
    var u := TrimEnd(t);
    assert Trim(s) == u;
    var i := |s| - |t|;
    assert u == t[..|u|] && t == s[i..];
    assert u == s[i..i + |u|];
    assert OccursAt(s, u, i);
    assert forall k :: i + |u| <= k < |s| ==> s[k] == t[k - i];
    assert StrippedAt(s, u, i);
    if u == [] {
      assert t == [];
    } else {
      assert !IsWhiteSpace(s[i]);
      assert !IsWhiteSpace(u[0]) && !IsWhiteSpace(u[|u| - 1]);
    }
  }

  /** `s.length`: the number of UTF-16 code units, two for each code point
      outside the Basic Multilingual Plane. */
  function Utf16Length(s: string): (n: nat)
    ensures |s| <= n <= 2 * |s|
    ensures (forall i :: 0 <= i < |s| ==> s[i] as int < 0x1_0000) ==> n == |s|
  {
    if s == [] then 0 else (if s[0] as int >= 0x1_0000 then 2 else 1) + Utf16Length(s[1..])
  }

  /** `toLowerCase` on one character; only A to Z are mapped. */
  function ToLowerChar(c: char): char
  {
    if 'A' <= c <= 'Z' then (c as int - 'A' as int + 'a' as int) as char else c
  }

  /** `s.toLowerCase()`, character by character. */
  function ToLower(s: string): (r: string)
    ensures |r| == |s|
    ensures forall i :: 0 <= i < |r| ==> !('A' <= r[i] <= 'Z')
    ensures forall i :: 0 <= i < |s| && !('A' <= s[i] <= 'Z') ==> r[i] == s[i]
  {
    seq(|s|, i requires 0 <= i < |s| => ToLowerChar(s[i]))
  }

  /** Lower-casing twice is lower-casing once, so comparing lower-cased strings
      does not depend on whether the operands were already lower case. */
  lemma ToLowerIdempotent(s: string)
    ensures ToLower(ToLower(s)) == ToLower(s)
  {
  }

  /** `needle` occurs in `hay` starting at position `i`. */
  predicate OccursAt(hay: string, needle: string, i: int)
  {
    0 <= i && i + |needle| <= |hay| && hay[i..i + |needle|] == needle
  }

  /** `hay.includes(needle)` */
  function Includes(hay: string, needle: string): (b: bool)
    ensures b <==> exists i :: OccursAt(hay, needle, i)
    decreases |hay|
  {
    if |hay| < |needle| then false
    else if hay[..|needle|] == needle then
      assert OccursAt(hay, needle, 0);
      true
    else
      var b := Includes(hay[1..], needle);
      assert !OccursAt(hay, needle, 0);
      forall i | OccursAt(hay, needle, i) && i > 0
        ensures OccursAt(hay[1..], needle, i - 1)
      {
        assert hay[1..][i - 1..i - 1 + |needle|] == hay[i..i + |needle|];
      }
      forall i | OccursAt(hay[1..], needle, i)
        ensures OccursAt(hay, needle, i + 1)
      {
        assert hay[1..][i..i + |needle|] == hay[i + 1..i + 1 + |needle|];
      }
      b
  }

  /** Every string includes the empty string. */
  lemma IncludesEmpty(hay: string)
    ensures Includes(hay, "")
  {
    assert OccursAt(hay, "", 0);
  }

  /** A one-character needle is included exactly when the character occurs. */
  lemma IncludesChar(hay: string, c: char)
    ensures Includes(hay, [c]) <==> c in hay
  {
    if c in hay {
      var i :| 0 <= i < |hay| && hay[i] == c;
      assert OccursAt(hay, [c], i);
    }
    if Includes(hay, [c]) {
      var i :| OccursAt(hay, [c], i);
      assert hay[i] == hay[i..i + 1][0] == c;
    }
  }

  /** The result of `parseInt`: a number or NaN. */
  datatype Number = NaN | Int(value: int)

  predicate IsDigit(c: char)
  {
    '0' <= c <= '9'
  }

  predicate AllDigits(s: string)
  {
    forall i :: 0 <= i < |s| ==> IsDigit(s[i])
  }

  function DigitValue(c: char): nat
    requires IsDigit(c)
  {
    c as int - '0' as int
  }

  function DigitChar(d: nat): char
    requires d < 10
  {
    ('0' as int + d) as char
  }

  /** The length of the longest prefix of `s` made of decimal digits. */
  function DigitRun(s: string): (n: nat)
    ensures n <= |s|
    ensures AllDigits(s[..n])
    ensures n < |s| ==> !IsDigit(s[n])
  {
    if s != [] && IsDigit(s[0]) then
      var n := 1 + DigitRun(s[1..]);
      assert s[..n] == [s[0]] + s[1..][..n - 1];
      n
    else 0
  }

  /** The value of a string of decimal digits, most significant digit first. */
  function DigitsValue(d: string): nat
    requires AllDigits(d)
  {
    if d == [] then 0 else DigitsValue(d[..|d| - 1]) * 10 + DigitValue(d[|d| - 1])
  }

  /** `parseInt(s, 10)` as in section 19.2.5 of ECMA-262: skip leading white
      space, take an optional sign, then the longest run of decimal digits; no
      digits at all gives NaN, and anything after the digits is ignored. */
  function ParseInt(s: string): (r: Number)
    ensures r.Int? ==> exists i :: 0 <= i < |s| && IsDigit(s[i])
    ensures r.Int? && r.value < 0 ==> '-' in s
  {
    var t := TrimStart(s);
    var u := if t != [] && (t[0] == '+' || t[0] == '-') then t[1..] else t;
    assert ParseSigned(t).Int? ==> u != [] && IsDigit(u[0]) && u[0] == s[|s| - |u|];
    assert ParseSigned(t).Int? && ParseSigned(t).value < 0 ==> t[0] == '-' && t[0] == s[|s| - |t|];
    ParseSigned(t)
  }

  /** `parseInt` on text that no longer starts with white space. */
  function ParseSigned(t: string): Number
  {
    var negative := t != [] && t[0] == '-';
    var u := if t != [] && (t[0] == '+' || t[0] == '-') then t[1..] else t;
    var z := u[..DigitRun(u)];
    if z == [] then NaN else Int(if negative then -(DigitsValue(z) as int) else DigitsValue(z))
  }

  /** The decimal digits of `n`, most significant first, without leading
      zeros. */
  function DecimalString(n: nat): (s: string)
    ensures s != [] && AllDigits(s)
  {
    if n < 10 then [DigitChar(n)] else DecimalString(n / 10) + [DigitChar(n % 10)]
  }

  /** Reading back a written number gives the number. */
  lemma {:induction false} DigitsValueOfDecimal(n: nat)
    ensures DigitsValue(DecimalString(n)) == n
  {
    var s := DecimalString(n);
    if n >= 10 {
      assert s[..|s| - 1] == DecimalString(n / 10);
      DigitsValueOfDecimal(n / 10);
    }
  }

  /** A run of digits followed by a non-digit is measured exactly. */
  lemma {:induction false} DigitRunOfDigits(d: string, rest: string)
    requires AllDigits(d)
    requires rest == [] || !IsDigit(rest[0])
    ensures DigitRun(d + rest) == |d|
  {
    if d != [] {
      assert (d + rest)[1..] == d[1..] + rest;
      DigitRunOfDigits(d[1..], rest);
    }
  }

  /** Leading white space never changes what `parseInt` reads. */
  lemma {:induction false} ParseIntSkipsWhiteSpace(ws: string, s: string)
    requires forall i :: 0 <= i < |ws| ==> IsWhiteSpace(ws[i])
    ensures ParseInt(ws + s) == ParseInt(s)
  {
    TrimStartSkips(ws, s);
  }

  lemma {:induction false} TrimStartSkips(ws: string, s: string)
    requires forall i :: 0 <= i < |ws| ==> IsWhiteSpace(ws[i])
    ensures TrimStart(ws + s) == TrimStart(s)
  {
    if ws != [] {
      var t := ws + s;
      assert t[0] == ws[0] && IsWhiteSpace(t[0]);
      assert t[1..] == ws[1..] + s;
      assert TrimStart(t) == TrimStart(t[1..]);
      TrimStartSkips(ws[1..], s);
    } else {
      assert ws + s == s;
    }
  }

  /** `parseInt` reads back the decimal representation of any natural number,
      whatever non-digit text follows it. */
  lemma ParseIntOfDecimal(n: nat, rest: string)
    requires rest == [] || !IsDigit(rest[0])
    ensures ParseInt(DecimalString(n) + rest) == Int(n)
  {
    var d := DecimalString(n);
    var s := d + rest;
    assert s[0] == d[0] && IsDigit(s[0]) && !IsWhiteSpace(s[0]);
    assert TrimStart(s) == s;
    DigitRunOfDigits(d, rest);
    assert s[..|d|] == d;
    DigitsValueOfDecimal(n);
  }

  /** A minus sign before a run of digits negates the value of the run. */
  lemma MinusBeforeDigits(u: string)
    requires u != [] && IsDigit(u[0])
    ensures ParseSigned("-" + u) == Int(-(DigitsValue(u[..DigitRun(u)]) as int))
  {
    var s := "-" + u;
    assert s[0] == '-' && s[1..] == u;
  }

  /** A minus sign in front of a written number negates it. */
  lemma ParseIntOfNegative(n: nat, rest: string)
    requires rest == [] || !IsDigit(rest[0])
    ensures ParseInt("-" + DecimalString(n) + rest) == Int(-(n as int))
  {
    var d := DecimalString(n);
    var u := d + rest;
    var s := "-" + u;
    assert "-" + d + rest == s;
    assert s[0] == '-' && !IsWhiteSpace(s[0]);
    assert TrimStart(s) == s;
    assert u[0] == d[0];
    MinusBeforeDigits(u);
    DigitRunOfDigits(d, rest);
    assert u[..|d|] == d;
    DigitsValueOfDecimal(n);
  }

  /** Text that does not start, after white space and an optional sign, with
      a digit is NaN. */
  lemma ParseIntWithoutDigits(s: string)
    requires forall i :: 0 <= i < |s| ==> !IsDigit(s[i])
    ensures ParseInt(s) == NaN
  {
    var t := TrimStart(s);
    assert forall i :: 0 <= i < |t| ==> t[i] == s[|s| - |t| + i];
  }
}
