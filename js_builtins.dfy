/** The few ECMAScript library operations the client relies on, stated on
    unbounded integers and Dafny strings: String.prototype.trim, parseInt
    (section 19.2.5 of ECMA-262, called without a radix), Array.prototype.slice
    with a negative start, Math.round of a quotient, and the decimal rendering
    of a non-negative integer used by template literals. */
module JsBuiltins {

  /** A JavaScript number known to be an integer, or NaN. */
  datatype JsInt = Int(value: int) | NaN

  /** StrWhiteSpaceChar of ECMA-262: WhiteSpace (TAB, VT, FF, ZWNBSP and every
      Zs code point) and LineTerminator (LF, CR, LS, PS). */
  predicate IsStrWhiteSpace(c: char) {
    var n := c as int;
    n == 0x09 || n == 0x0B || n == 0x0C || n == 0xFEFF
    || n == 0x20 || n == 0xA0 || n == 0x1680 || (0x2000 <= n <= 0x200A)
    || n == 0x202F || n == 0x205F || n == 0x3000
    || n == 0x0A || n == 0x0D || n == 0x2028 || n == 0x2029
  }

  predicate AllWhiteSpace(s: string) {
    forall k :: 0 <= k < |s| ==> IsStrWhiteSpace(s[k])
  }

  /** TrimString(s, start): drops the leading white space. */
  function TrimStart(s: string): (r: string)
    ensures |r| <= |s| && r == s[|s| - |r|..]
    ensures AllWhiteSpace(s[..|s| - |r|])
    ensures r == [] || !IsStrWhiteSpace(r[0])
  {
    if |s| > 0 && IsStrWhiteSpace(s[0]) then
      var r := TrimStart(s[1..]);
      assert s[..|s| - |r|] == [s[0]] + s[1..][..|s[1..]| - |r|];
      r
    else s
  }

  /** TrimString(s, end): drops the trailing white space. */
  function TrimEnd(s: string): (r: string)
    ensures |r| <= |s| && r == s[..|r|]
    ensures AllWhiteSpace(s[|r|..])
    ensures r == [] || !IsStrWhiteSpace(r[|r| - 1])
  {
    if |s| > 0 && IsStrWhiteSpace(s[|s| - 1]) then TrimEnd(s[..|s| - 1]) else s
  }

  /** String.prototype.trim. */
  function Trim(s: string): string {
    TrimEnd(TrimStart(s))
  }

  lemma {:induction false} TrimStartSkipsWhiteSpace(w: string, s: string)
    requires AllWhiteSpace(w)
    ensures TrimStart(w + s) == TrimStart(s)
  {
    if w != [] {
      assert (w + s)[0] == w[0];
      assert IsStrWhiteSpace((w + s)[0]);
      assert (w + s)[1..] == w[1..] + s;
      assert TrimStart(w + s) == TrimStart(w[1..] + s);
      TrimStartSkipsWhiteSpace(w[1..], s);
    } else {
      assert w + s == s;
    }
  }

  lemma {:induction false} TrimStartKeepsNonWhiteSpace(s: string)
    requires s == [] || !IsStrWhiteSpace(s[0])
    ensures TrimStart(s) == s
  {
  }

  lemma {:induction false} TrimEndKeepsHead(a: string, b: string)
    requires a != [] && !IsStrWhiteSpace(a[|a| - 1])
    ensures TrimEnd(a + b) == a + TrimEnd(b)
    decreases |b|
  {
    if b == [] {
      assert a + b == a;
    } else if IsStrWhiteSpace(b[|b| - 1]) {
      assert (a + b)[..|a + b| - 1] == a + b[..|b| - 1];
      TrimEndKeepsHead(a, b[..|b| - 1]);
    } else {
      assert (a + b)[|a + b| - 1] == b[|b| - 1];
    }
  }

  /** Value of an ASCII letter or digit as a digit in base 36, 36 otherwise. */
  function DigitValue(c: char): (d: nat)
    ensures d <= 36
  {
    if '0' <= c <= '9' then (c as int) - ('0' as int)
    else if 'a' <= c <= 'z' then (c as int) - ('a' as int) + 10
    else if 'A' <= c <= 'Z' then (c as int) - ('A' as int) + 10
    else 36
  }

  predicate IsRadixDigit(c: char, radix: nat) {
    DigitValue(c) < radix
  }

  predicate AllRadixDigits(s: string, radix: nat) {
    forall k :: 0 <= k < |s| ==> IsRadixDigit(s[k], radix)
  }

  /** The longest prefix of s made of radix-digits (steps 11 and 12 of parseInt). */
  function DigitPrefix(s: string, radix: nat): (z: string)
    ensures |z| <= |s| && z == s[..|z|]
    ensures AllRadixDigits(z, radix)
    ensures |z| == |s| || !IsRadixDigit(s[|z|], radix)
  {
    if |s| > 0 && IsRadixDigit(s[0], radix) then [s[0]] + DigitPrefix(s[1..], radix) else []
  }

  /** The mathematical value of a digit string, most significant digit first. */
  function DigitsValue(z: string, radix: nat): nat {
    if z == [] then 0 else DigitsValue(z[..|z| - 1], radix) * radix + DigitValue(z[|z| - 1])
  }

  /** parseInt(s) with radix undefined: skip leading white space, read an
      optional sign, then the magnitude. A zero with a minus sign (-0) is the
      integer 0 here. */
  function ParseInt(s: string): JsInt {
    var t := TrimStart(s);
    var negative := |t| > 0 && t[0] == '-';
    match ParseMagnitude(StripSign(t))
    case NaN => NaN
    case Int(m) => Int(if negative then -m else m)
  }

  /** Step 5 of parseInt: one leading '+' or '-' is removed (step 4 has
      already noted a '-'). */
  function StripSign(t: string): (u: string)
    ensures u == t || (t != [] && u == t[1..])
  {
    if |t| > 0 && (t[0] == '-' || t[0] == '+') then t[1..] else t
  }

  /** Steps 10 to 13 of parseInt: a "0x" or "0X" prefix means base 16, otherwise
      base 10; digits are read up to the first character that is not one, and
      no digit at all gives NaN. */
  function ParseMagnitude(u: string): (r: JsInt)
    ensures r.Int? ==> r.value >= 0
  {
    var hex := |u| >= 2 && u[0] == '0' && (u[1] == 'x' || u[1] == 'X');
    var radix := if hex then 16 else 10;
    var z := DigitPrefix(if hex then u[2..] else u, radix);
    if z == [] then NaN else Int(DigitsValue(z, radix))
  }

  /** The decimal rendering of a non-negative integer (Number::toString). */
  function DecimalString(n: nat): (s: string)
    ensures |s| > 0 && AllRadixDigits(s, 10)
    ensures s[0] == '0' ==> n == 0 && s == "0"
  {
    if n < 10 then [('0' as int + n) as char]
    else DecimalString(n / 10) + [('0' as int + n % 10) as char]
  }

  lemma {:induction false} DigitPrefixStops(z: string, rest: string, radix: nat)
    requires AllRadixDigits(z, radix)
    requires rest == [] || !IsRadixDigit(rest[0], radix)
    ensures DigitPrefix(z + rest, radix) == z
  {
    if z == [] {
      assert z + rest == rest;
    } else {
      assert (z + rest)[1..] == z[1..] + rest;
      DigitPrefixStops(z[1..], rest, radix);
    }
  }

  lemma {:induction false} DecimalStringValue(n: nat)
    ensures DigitsValue(DecimalString(n), 10) == n
  {
    if n >= 10 {
      var s := DecimalString(n);
      assert s[..|s| - 1] == DecimalString(n / 10);
      DecimalStringValue(n / 10);
    }
  }

  /** A character that may follow a number without being read into it. */
  predicate EndsNumber(rest: string, n: nat) {
    rest == [] || (!IsRadixDigit(rest[0], 10) && (n == 0 ==> rest[0] != 'x' && rest[0] != 'X'))
  }

  lemma MagnitudeDecimal(n: nat, rest: string)
    requires EndsNumber(rest, n)
    ensures ParseMagnitude(DecimalString(n) + rest) == Int(n)
  {
    var d := DecimalString(n);
    var u := d + rest;
    if |d| == 1 && rest != [] {
      assert u[1] == rest[0];
    } else if |d| >= 2 {
      assert u[1] == d[1];
    }
    DigitPrefixStops(d, rest, 10);
    DecimalStringValue(n);
  }

  /** parseInt of a string whose white space is already skipped and whose sign
      is already read. */
  lemma ParseIntUnsigned(s: string, t: string)
    requires TrimStart(s) == t && (t == [] || t[0] != '-')
    ensures ParseInt(s) == ParseMagnitude(StripSign(t))
  {
  }

  /** A decimal rendering followed by a non-digit needs no trimming and has no
      sign, and its magnitude is the rendered number. */
  lemma DecimalUnsigned(n: nat, rest: string)
    requires EndsNumber(rest, n)
    ensures var t := DecimalString(n) + rest;
      TrimStart(t) == t && t[0] != '-' && ParseMagnitude(StripSign(t)) == Int(n)
  {
    var d := DecimalString(n);
    var t := d + rest;
    assert t[0] == d[0];
    TrimStartKeepsNonWhiteSpace(t);
    assert StripSign(t) == t;
    MagnitudeDecimal(n, rest);
  }

  /** parseInt reads back the decimal rendering of n, after any leading white
      space and up to the first character that is not a digit. */
  lemma ParseIntDecimal(w: string, n: nat, rest: string)
    requires AllWhiteSpace(w) && EndsNumber(rest, n)
    ensures ParseInt(w + (DecimalString(n) + rest)) == Int(n)
  {
    var t := DecimalString(n) + rest;
    TrimStartSkipsWhiteSpace(w, t);
    DecimalUnsigned(n, rest);
    ParseIntUnsigned(w + t, t);
  }

  /** The same with a minus sign in front: the negated value. */
  lemma ParseIntNegativeDecimal(w: string, n: nat, rest: string)
    requires AllWhiteSpace(w) && EndsNumber(rest, n)
    ensures ParseInt(w + ("-" + (DecimalString(n) + rest))) == Int(-(n as int))
  {
    var u := DecimalString(n) + rest;
    var t := "-" + u;
    TrimStartSkipsWhiteSpace(w, t);
    TrimStartKeepsNonWhiteSpace(t);
    MagnitudeDecimal(n, rest);
    ParseIntMinus(w + t, t, n);
  }

  /** parseInt of a string whose white space is already skipped and which
      starts with a minus sign: the negated magnitude. */
  lemma ParseIntMinus(s: string, t: string, m: nat)
    requires TrimStart(s) == t && t != [] && t[0] == '-' && ParseMagnitude(t[1..]) == Int(m)
    ensures ParseInt(s) == Int(-(m as int))
  {
    assert StripSign(t) == t[1..];
  }

  /** A "0x" or "0X" prefix switches parseInt to base 16. */
  lemma ParseIntHex(prefix: string, z: string, rest: string)
    requires prefix == "0x" || prefix == "0X"
    requires z != [] && AllRadixDigits(z, 16)
    requires rest == [] || !IsRadixDigit(rest[0], 16)
    ensures ParseInt(prefix + z + rest) == Int(DigitsValue(z, 16))
  {
    var t := prefix + z + rest;
    TrimStartKeepsNonWhiteSpace(t);
    assert StripSign(t) == t;
    assert t[2..] == z + rest;
    DigitPrefixStops(z, rest, 16);
  }

  /** A plus sign in front is removed and changes nothing. */
  lemma ParseIntPlusDecimal(w: string, n: nat, rest: string)
    requires AllWhiteSpace(w) && EndsNumber(rest, n)
    ensures ParseInt(w + ("+" + (DecimalString(n) + rest))) == Int(n)
  {
    var u := DecimalString(n) + rest;
    var t := "+" + u;
    TrimStartSkipsWhiteSpace(w, t);
    TrimStartKeepsNonWhiteSpace(t);
    MagnitudeDecimal(n, rest);
    assert StripSign(t) == u;
    ParseIntUnsigned(w + t, t);
  }

  /** Without a single digit in front, parseInt gives NaN. */
  lemma ParseIntNoDigits(s: string)
    requires s == [] || (!IsRadixDigit(s[0], 10) && !IsStrWhiteSpace(s[0]) && s[0] != '-' && s[0] != '+')
    ensures ParseInt(s) == NaN
  {
    TrimStartKeepsNonWhiteSpace(s);
  }

  /** arr.slice(-n) for n > 0: the last min(n, |s|) elements, in order. */
  function SliceLast<T>(s: seq<T>, n: nat): (r: seq<T>)
    requires n > 0
    ensures |r| == if |s| < n then |s| else n
    ensures forall k :: 0 <= k < |r| ==> r[k] == s[|s| - |r| + k]
  {
    if |s| <= n then s else s[|s| - n..]
  }

  /** Math.round(a / b) for b > 0: the integer nearest to a / b, halves
      rounded up (towards +Infinity). */
  function RoundRatio(a: int, b: int): (r: int)
    requires b > 0
    ensures (r as real) - 0.5 <= (a as real) / (b as real) < (r as real) + 0.5
  {
    var q := (2 * a + b) / (2 * b);
    RoundRatioBounds(a, b, q);
    q
  }

  lemma RoundRatioBounds(a: int, b: int, q: int)
    requires b > 0 && q == (2 * a + b) / (2 * b)
    ensures (q as real) - 0.5 <= (a as real) / (b as real) < (q as real) + 0.5
  {
    var m := (2 * a + b) % (2 * b);
    assert 2 * a + b == 2 * b * q + m && 0 <= m < 2 * b;
    var x := (a as real) / (b as real);
    assert x * (b as real) == a as real;
    assert (2 * a + b) as real == 2.0 * (b as real) * (q as real) + (m as real);
    assert 2.0 * (b as real) * x + (b as real) == 2.0 * (b as real) * (q as real) + (m as real);
    assert 0.0 <= (m as real) < 2.0 * (b as real);
    RealScale(x, q as real, b as real, m as real);
  }

  lemma RealScale(x: real, q: real, b: real, m: real)
    requires b > 0.0 && 0.0 <= m < 2.0 * b
    requires 2.0 * b * x + b == 2.0 * b * q + m
    ensures q - 0.5 <= x < q + 0.5
  {
    var y := x - q + 0.5;
    assert 2.0 * b * y == m;
  }
}
