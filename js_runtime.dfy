/** The pieces of JavaScript runtime behaviour the page handlers rely on:
    `parseInt` with no radix, `Array.prototype.join(' ')`, and string truthiness.
    JavaScript's NaN is represented by `None`. */
module JsRuntime {

  datatype Option<+T> = None | Some(value: T)

  /** JavaScript's `!!s` for a string: only the empty string is falsy. */
  predicate Truthy(s: string) {
    s != ""
  }

  /** StrWhiteSpaceChar of ECMAScript: WhiteSpace (TAB, VT, FF, SP, NBSP, ZWNBSP and
      the Unicode space separators) and LineTerminator (LF, CR, LS, PS). */
  predicate IsJsWhiteSpace(c: char) {
    var k := c as int;
    k == 0x09 || k == 0x0B || k == 0x0C || k == 0x20 || k == 0xA0 || k == 0xFEFF ||
    k == 0x1680 || (0x2000 <= k <= 0x200A) || k == 0x202F || k == 0x205F || k == 0x3000 ||
    k == 0x0A || k == 0x0D || k == 0x2028 || k == 0x2029
  }

  /** Drops leading white space, as `parseInt` does before looking at a sign. */
  function TrimStart(s: string): (r: string)
    ensures |r| <= |s| && r == s[|s| - |r|..]
    ensures r == [] || !IsJsWhiteSpace(r[0])
    ensures forall i :: 0 <= i < |s| - |r| ==> IsJsWhiteSpace(s[i])
  {
    if s != [] && IsJsWhiteSpace(s[0]) then TrimStart(s[1..]) else s
  }

  predicate IsDecimalDigit(c: char) {
    '0' <= c <= '9'
  }

  /** A digit of the given radix (parseInt without a radix uses 10, or 16 after "0x"). */
  predicate IsRadixDigit(c: char, radix: nat) {
    if radix == 16 then IsDecimalDigit(c) || 'a' <= c <= 'f' || 'A' <= c <= 'F'
    else IsDecimalDigit(c)
  }

  function DigitValue(c: char): (d: nat)
    requires IsRadixDigit(c, 16)
    ensures d < 16
    ensures IsDecimalDigit(c) ==> d < 10
  {
    if IsDecimalDigit(c) then (c - '0') as nat
    else if 'a' <= c <= 'f' then (c - 'a') as nat + 10
    else (c - 'A') as nat + 10
  }

  /** Length of the longest prefix of `s` made of digits of `radix`. */
  function DigitRun(s: string, radix: nat): (n: nat)
    ensures n <= |s|
    ensures forall i :: 0 <= i < n ==> IsRadixDigit(s[i], radix)
    ensures n < |s| ==> !IsRadixDigit(s[n], radix)
  {
    if s == [] || !IsRadixDigit(s[0], radix) then 0 else 1 + DigitRun(s[1..], radix)
  }

  /** The mathematical value of a digit string in the given radix. */
  function ValueOf(z: string, radix: nat): nat
    requires radix == 10 || radix == 16
    requires forall i :: 0 <= i < |z| ==> IsRadixDigit(z[i], radix)
  {
    if z == [] then 0
    else
      assert IsRadixDigit(z[|z| - 1], radix);
      ValueOf(z[..|z| - 1], radix) * radix + DigitValue(z[|z| - 1])
  }

  /** `parseInt(s)` with no radix argument (ECMAScript section 19.2.5): skip leading white
      space, read one optional sign, switch to radix 16 after a "0x"/"0X" prefix, then read
      the longest digit prefix; no digits at all gives NaN (`None`). A negative zero is
      represented by 0: every comparison the pages make treats the two alike. */
  function ParseInt(s: string): (r: Option<int>)
    ensures r.Some? ==> var u := AfterSign(TrimStart(s)); u != [] && IsDecimalDigit(u[0])
    ensures (forall i :: 0 <= i < |s| ==> IsJsWhiteSpace(s[i])) ==> r.None?
  {
    ParseTrimmed(TrimStart(s))
  }

  /** What is left of `t` once one leading sign, if any, is dropped. */
  function AfterSign(t: string): string {
    if |t| > 0 && (t[0] == '-' || t[0] == '+') then t[1..] else t
  }

  /** `parseInt` once leading white space is gone: one optional sign, then the magnitude.
      Only a leading minus can make the result negative. */
  function ParseTrimmed(t: string): (r: Option<int>)
    ensures r.Some? ==> var u := AfterSign(t); u != [] && IsDecimalDigit(u[0])
    ensures r.Some? && r.value < 0 ==> t != [] && t[0] == '-'
    ensures t != [] && t[0] != '-' && r.Some? ==> r.value >= 0
  {
    var negative := |t| > 0 && t[0] == '-';
    match ParseMagnitude(AfterSign(t))
    case None => None
    case Some(m) => Some(if negative then -(m as int) else m)
  }

  /** "0x" or "0X" at the front, which makes `parseInt` read hexadecimal digits. */
  predicate HexPrefixed(u: string) {
    |u| >= 2 && u[0] == '0' && (u[1] == 'x' || u[1] == 'X')
  }

  /** The unsigned part: "0x"/"0X" selects radix 16, otherwise radix 10; the longest digit
      prefix is read and an empty prefix is NaN. So a number comes out exactly when `u`
      starts with a decimal digit, except that "0x" needs a hexadecimal digit after it. */
  function ParseMagnitude(u: string): (r: Option<nat>)
    ensures r.Some? ==> u != [] && IsDecimalDigit(u[0])
    ensures !HexPrefixed(u) ==> (r.Some? <==> u != [] && IsDecimalDigit(u[0]))
    ensures HexPrefixed(u) ==> (r.Some? <==> |u| > 2 && IsRadixDigit(u[2], 16))
  {
    var radix := if HexPrefixed(u) then 16 else 10;
    var digits := if HexPrefixed(u) then u[2..] else u;
    var n := DigitRun(digits, radix);
    if n == 0 then None else Some(ValueOf(digits[..n], radix))
  }

  /** The decimal numeral of a non-negative integer, most significant digit first. */
  function NatToString(n: nat): (s: string)
    ensures |s| > 0
    ensures forall i :: 0 <= i < |s| ==> IsDecimalDigit(s[i])
  {
    if n < 10 then ['0' + n as char]
    else NatToString(n / 10) + ['0' + (n % 10) as char]
  }

  /** `parts.join(' ')`: every part in order, one space between neighbours. */
  function JoinSpace(parts: seq<string>): (r: string)
    ensures parts == [] ==> r == ""
    ensures parts != [] ==> |r| == TotalLength(parts) + |parts| - 1
    ensures parts != [] ==> r[..|parts[0]|] == parts[0]
  {
    if parts == [] then ""
    else if |parts| == 1 then parts[0]
    else parts[0] + " " + JoinSpace(parts[1..])
  }

  /** The summed length of the parts. */
  function TotalLength(parts: seq<string>): nat {
    if parts == [] then 0 else |parts[0]| + TotalLength(parts[1..])
  }

  // ---------------------------------------------------------------------------
  // Properties of the model

  /** The decimal numeral of `n` has no leading zero unless `n` is zero itself. */
  lemma {:induction false} NumeralLeadingDigit(n: nat)
    ensures NatToString(n)[0] == '0' <==> n == 0
  {
    if n >= 10 {
      NumeralLeadingDigit(n / 10);
      assert NatToString(n)[0] == NatToString(n / 10)[0];
    }
  }

  /** Reading a numeral back gives the number: the value function inverts `NatToString`. */
  lemma {:induction false} ValueOfNumeral(n: nat)
    ensures ValueOf(NatToString(n), 10) == n
  {
    var s := NatToString(n);
    if n >= 10 {
      ValueOfNumeral(n / 10);
      assert s[..|s| - 1] == NatToString(n / 10);
    }
  }

  lemma {:induction false} DigitRunAppend(a: string, t: string, radix: nat)
    requires forall i :: 0 <= i < |a| ==> IsRadixDigit(a[i], radix)
    ensures DigitRun(a + t, radix) == |a| + DigitRun(t, radix)
  {
    if a == [] {
      assert a + t == t;
    } else {
      assert (a + t)[0] == a[0] && IsRadixDigit(a[0], radix);
      assert (a + t)[1..] == a[1..] + t;
      DigitRunAppend(a[1..], t, radix);
    }
  }

  /** `parseInt` reads an optionally signed run of decimal digits, leading zeros included,
      and stops at the first character that cannot continue it: "2 adults" gives 2, "-3"
      gives -3 and "007" gives 7. The one exception is "0x"/"0X", which switches to
      hexadecimal. */
  lemma ParseIntNumeral(sign: string, ds: string, rest: string)
    requires sign == "" || sign == "+" || sign == "-"
    requires ds != [] && forall i :: 0 <= i < |ds| ==> IsDecimalDigit(ds[i])
    requires rest == [] || !IsDecimalDigit(rest[0])
    requires !HexPrefixed(ds + rest)
    ensures ParseInt(sign + (ds + rest)) ==
      Some(Signed(sign, ValueOf(ds, 10)))
  {
    ParseMagnitudeNumeral(ds, rest);
    var u := ds + rest;
    assert u[0] == ds[0];
    var m := ValueOf(ds, 10);
    assert ParseMagnitude(u) == Some(m);
    ParseIntSigned(sign, u, m);
    assert ParseInt(sign + u) == Some(Signed(sign, m));
  }

  /** The value a sign gives a magnitude: negated after "-", unchanged after "+" or none. */
  function Signed(sign: string, m: nat): int {
    if sign == "-" then -(m as int) else m
  }

  /** A sign directly followed by a decimal digit: no white space is skipped and the sign
      applies to the magnitude. */
  lemma ParseIntSigned(sign: string, u: string, m: nat)
    requires sign == "" || sign == "+" || sign == "-"
    requires u != [] && IsDecimalDigit(u[0])
    requires ParseMagnitude(u) == Some(m)
    ensures ParseInt(sign + u) == Some(Signed(sign, m))
  {
    var t := sign + u;
    assert t[0] == if sign == "" then u[0] else sign[0];
    NoWhiteSpaceToTrim(t);
    ParseTrimmedSigned(sign, u, m);
  }

  lemma NoWhiteSpaceToTrim(t: string)
    requires t != [] && !IsJsWhiteSpace(t[0])
    ensures TrimStart(t) == t
  {
  }

  lemma ParseTrimmedSigned(sign: string, u: string, m: nat)
    requires sign == "" || sign == "+" || sign == "-"
    requires u != [] && IsDecimalDigit(u[0])
    requires ParseMagnitude(u) == Some(m)
    ensures ParseTrimmed(sign + u) == Some(Signed(sign, m))
  {
    var t := sign + u;
    if sign == "" {
      assert t == u && AfterSign(t) == u;
    } else if sign == "+" {
      assert t[0] == '+' && t[1..] == u && AfterSign(t) == u;
    } else {
      assert t[0] == '-' && t[1..] == u && AfterSign(t) == u;
    }
  }

  lemma ParseMagnitudeNumeral(ds: string, rest: string)
    requires ds != [] && forall i :: 0 <= i < |ds| ==> IsDecimalDigit(ds[i])
    requires rest == [] || !IsDecimalDigit(rest[0])
    requires !HexPrefixed(ds + rest)
    ensures ParseMagnitude(ds + rest) == Some(ValueOf(ds, 10))
  {
    var u := ds + rest;
    DigitRunAppend(ds, rest, 10);
    assert DigitRun(rest, 10) == 0;
    assert u[..|ds|] == ds;
  }

  /** An unsigned run of decimal digits followed by text that cannot continue it parses to
      the digits' value. */
  lemma ParseIntNumeralPrefix(ds: string, rest: string)
    requires ds != [] && forall i :: 0 <= i < |ds| ==> IsDecimalDigit(ds[i])
    requires rest == [] || !IsDecimalDigit(rest[0])
    requires !HexPrefixed(ds + rest)
    ensures ParseInt(ds + rest) == Some(ValueOf(ds, 10))
  {
    var u := ds + rest;
    assert u[0] == ds[0];
    ParseMagnitudeNumeral(ds, rest);
    ParseIntSigned("", u, ValueOf(ds, 10));
    assert "" + u == u;
  }

  /** After "0x" or "0X" `parseInt` reads hexadecimal digits, in either case, up to the
      first character that cannot continue them; a sign in front negates the value, so
      "-0x1F" gives -31. */
  lemma ParseIntHex(sign: string, x: char, hs: string, rest: string)
    requires sign == "" || sign == "+" || sign == "-"
    requires x == 'x' || x == 'X'
    requires hs != [] && forall i :: 0 <= i < |hs| ==> IsRadixDigit(hs[i], 16)
    requires rest == [] || !IsRadixDigit(rest[0], 16)
    ensures ParseInt(sign + (['0', x] + (hs + rest))) ==
      Some(Signed(sign, ValueOf(hs, 16)))
  {
    ParseMagnitudeHex(x, hs, rest);
    var u := ['0', x] + (hs + rest);
    var m := ValueOf(hs, 16);
    assert ParseMagnitude(u) == Some(m);
    ParseIntSigned(sign, u, m);
    assert ParseInt(sign + u) == Some(Signed(sign, m));
  }

  lemma ParseMagnitudeHex(x: char, hs: string, rest: string)
    requires x == 'x' || x == 'X'
    requires hs != [] && forall i :: 0 <= i < |hs| ==> IsRadixDigit(hs[i], 16)
    requires rest == [] || !IsRadixDigit(rest[0], 16)
    ensures ParseMagnitude(['0', x] + (hs + rest)) == Some(ValueOf(hs, 16))
  {
    var u := ['0', x] + (hs + rest);
    assert HexPrefixed(u);
    assert u[2..] == hs + rest;
    DigitRunAppend(hs, rest, 16);
    assert DigitRun(rest, 16) == 0;
    assert (hs + rest)[..|hs|] == hs;
  }

  /** The numeral of a non-negative integer parses back to it. */
  lemma ParseIntRoundTrip(n: nat)
    ensures ParseInt(NatToString(n)) == Some(n)
  {
    var a := NatToString(n);
    assert a + "" == a;
    assert |a| >= 2 ==> IsDecimalDigit(a[1]);
    ParseIntNumeralPrefix(a, "");
    ValueOfNumeral(n);
  }

  /** Leading zeros do not change a decimal value. */
  lemma {:induction false} ValueOfLeadingZero(ds: string)
    requires forall i :: 0 <= i < |ds| ==> IsDecimalDigit(ds[i])
    ensures ValueOf("0" + ds, 10) == ValueOf(ds, 10)
  {
    if ds == [] {
      assert "0" + ds == "0";
    } else {
      var z := "0" + ds;
      assert z[..|z| - 1] == "0" + ds[..|ds| - 1];
      assert z[|z| - 1] == ds[|ds| - 1];
      ValueOfLeadingZero(ds[..|ds| - 1]);
    }
  }

  lemma {:induction false} TrimStartSkipsWhiteSpace(w: string, s: string)
    requires forall i :: 0 <= i < |w| ==> IsJsWhiteSpace(w[i])
    ensures TrimStart(w + s) == TrimStart(s)
  {
    if w == [] {
      assert w + s == s;
    } else {
      assert (w + s)[0] == w[0] && IsJsWhiteSpace(w[0]);
      assert (w + s)[1..] == w[1..] + s;
      TrimStartSkipsWhiteSpace(w[1..], s);
    }
  }

  /** Leading white space never changes what `parseInt` returns. */
  lemma ParseIntSkipsWhiteSpace(w: string, s: string)
    requires forall i :: 0 <= i < |w| ==> IsJsWhiteSpace(w[i])
    ensures ParseInt(w + s) == ParseInt(s)
  {
    TrimStartSkipsWhiteSpace(w, s);
  }

  /** Leading white space and one sign followed by anything but a decimal digit is NaN:
      "", "  ", "+", "-abc" and " two" all give `None`. With no sign, `rest` must not start
      with more white space or a sign, which `parseInt` would skip or read. */
  lemma ParseIntNoDigits(w: string, sign: string, rest: string)
    requires forall i :: 0 <= i < |w| ==> IsJsWhiteSpace(w[i])
    requires sign == "" || sign == "+" || sign == "-"
    requires rest == [] || !IsDecimalDigit(rest[0])
    requires sign == "" && rest != [] ==> !IsJsWhiteSpace(rest[0]) && rest[0] != '+' && rest[0] != '-'
    ensures ParseInt(w + sign + rest) == None
  {
    var t := sign + rest;
    assert w + sign + rest == w + t;
    TrimStartSkipsWhiteSpace(w, t);
    if sign == "" {
      assert t == rest;
      if rest != [] {
        NoWhiteSpaceToTrim(rest);
      }
    } else {
      SignStopsTrim(sign, rest);
    }
    assert TrimStart(w + t) == t;
    ParseTrimmedNoDigits(sign, rest);
    assert ParseTrimmed(TrimStart(w + t)) == None;
  }

  lemma SignStopsTrim(sign: string, rest: string)
    requires sign == "+" || sign == "-"
    ensures TrimStart(sign + rest) == sign + rest
  {
    var t := sign + rest;
    assert t[0] == sign[0];
    assert !IsJsWhiteSpace(sign[0]);
  }

  lemma ParseTrimmedNoDigits(sign: string, rest: string)
    requires sign == "" || sign == "+" || sign == "-"
    requires rest == [] || !IsDecimalDigit(rest[0])
    requires sign == "" && rest != [] ==> rest[0] != '+' && rest[0] != '-'
    ensures ParseTrimmed(sign + rest) == None
  {
    var t := sign + rest;
    if sign == "" {
      assert t == rest;
    } else {
      assert t[0] == sign[0] && t[1..] == rest;
    }
    assert AfterSign(t) == rest;
  }

  /** Appending one more part appends a single space and that part to the joined text. */
  lemma JoinSpaceSnoc(parts: seq<string>, x: string)
    requires parts != []
    ensures JoinSpace(parts + [x]) == JoinSpace(parts) + " " + x
  {
    JoinSpaceAppend(parts, [x]);
  }

  /** Joining with single spaces is associative across a split of the list: the joined
      text of `a + b` is the joined text of `a`, one space, then that of `b`. */
  lemma {:induction false} JoinSpaceAppend(a: seq<string>, b: seq<string>)
    requires a != [] && b != []
    ensures JoinSpace(a + b) == JoinSpace(a) + " " + JoinSpace(b)
  {
    if |a| == 1 {
      assert (a + b)[1..] == b;
    } else {
      assert (a + b)[1..] == a[1..] + b;
      JoinSpaceAppend(a[1..], b);
    }
  }
}
