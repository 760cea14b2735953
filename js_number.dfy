/**
 * The JavaScript number primitives the handlers use: global `parseInt` with no radix
 * argument (section 19.2.5 of ECMA-262), `Number.prototype.toString()` on an integer,
 * and the infinite limits `Number.NEGATIVE_INFINITY` / `Number.POSITIVE_INFINITY`.
 * `parseFloat` is not defined here: the handlers receive it as a parameter.
 */
module JsNumber {
  import opened Wrappers

  /** WhiteSpace and LineTerminator code points, which `parseInt` skips at the start. */
  predicate IsStrWhiteSpace(c: char)
  {
    c == '\t' || c == '\n' || c == '\U{000B}' || c == '\U{000C}' || c == '\r' || c == ' '
    || c == '\U{00A0}' || c == '\U{1680}' || ('\U{2000}' <= c <= '\U{200A}')
    || c == '\U{2028}' || c == '\U{2029}' || c == '\U{202F}' || c == '\U{205F}'
    || c == '\U{3000}' || c == '\U{FEFF}'
  }

  /** The text `parseInt` reads: `s` without its leading white space, and nothing else. */
  function TrimStart(s: string): (r: string)
    ensures |r| <= |s| && r == s[|s| - |r|..]
    ensures r == [] || !IsStrWhiteSpace(r[0])
    ensures forall i :: 0 <= i < |s| - |r| ==> IsStrWhiteSpace(s[i])
    decreases |s|
  {
    if s != [] && IsStrWhiteSpace(s[0]) then TrimStart(s[1..]) else s
  }

  /** The value of `c` as a digit of base `radix` (10 or 16), if it is one. */
  function DigitValue(c: char, radix: nat): (r: Option<nat>)
    ensures r.Some? ==> r.value < radix
  {
    var d: int :=
      if '0' <= c <= '9' then c as int - '0' as int
      else if 'a' <= c <= 'z' then c as int - 'a' as int + 10
      else if 'A' <= c <= 'Z' then c as int - 'A' as int + 10
      else radix;
    if d < radix then Some(d) else None
  }

  predicate AllDigits(s: string, radix: nat)
  {
    forall i :: 0 <= i < |s| ==> DigitValue(s[i], radix).Some?
  }

  /** The length of the longest prefix of `s` made of digits of base `radix`. */
  function DigitRun(s: string, radix: nat): (n: nat)
    ensures n <= |s| && AllDigits(s[..n], radix)
    ensures n < |s| ==> DigitValue(s[n], radix).None?
    decreases |s|
  {
    if s != [] && DigitValue(s[0], radix).Some? then
      var n := 1 + DigitRun(s[1..], radix);
      assert forall i :: 1 <= i < n ==> s[..n][i] == s[1..][..n - 1][i - 1];
      n
    else 0
  }

  /** The integer a digit string of base `radix` denotes, most significant digit first. */
  function DigitsValue(s: string, radix: nat): (v: nat)
    requires AllDigits(s, radix)
    decreases |s|
  {
    if s == [] then 0
    else DigitsValue(s[..|s| - 1], radix) * radix + DigitValue(s[|s| - 1], radix).value
  }

  /** Global `parseInt(s)`: skip leading white space, then read a signed integer. */
  function ParseInt(s: string): (r: Option<int>)
    ensures TrimStart(s) == [] ==> r.None?
    ensures r.Some? ==> TrimStart(s)[0] == '-' || r.value >= 0
  {
    ParseSigned(TrimStart(s))
  }

  /** An optional sign, then a magnitude; a minus sign negates it. */
  function ParseSigned(t: string): (r: Option<int>)
    ensures t == [] ==> r.None?
    ensures r.Some? && t[0] == '-' ==> r.value <= 0
    ensures r.Some? && t[0] != '-' ==> r.value >= 0
  {
    var negative := t != [] && t[0] == '-';
    var u := if t != [] && (t[0] == '-' || t[0] == '+') then t[1..] else t;
    match ParseMagnitude(u)
    case None => None
    case Some(m) =>
      var k: int := m;
      Some(if negative then -k else k)
  }

  /** Base 16 after a `0x`/`0X` prefix, else base 10; the longest run of digits counts,
      and no digit at all is NaN. */
  function ParseMagnitude(u: string): (r: Option<nat>)
    ensures u == [] || DigitValue(u[0], 10).None? ==> r.None?
    ensures u != [] && AllDigits(u, 10) ==> r == Some(DigitsValue(u, 10))
  {
    var hex := |u| >= 2 && u[0] == '0' && (u[1] == 'x' || u[1] == 'X');
    var radix := if hex then 16 else 10;
    var v := if hex then u[2..] else u;
    var n := DigitRun(v, radix);
    assert u != [] && AllDigits(u, 10) ==> !hex && n == |u| && v[..n] == u by {
      if u != [] && AllDigits(u, 10) {
        assert u + [] == u;
        DigitRunOfRun(u, [], 10);
        assert |u| >= 2 ==> DigitValue(u[1], 10).Some?;
      }
    }
    if n == 0 then None else Some(DigitsValue(v[..n], radix))
  }

  function DigitChar(d: nat): (c: char)
    requires d < 10
    ensures DigitValue(c, 10) == Some(d)
  {
    ('0' as int + d) as char
  }

  /** Decimal digits of a natural number, without leading zeros. */
  function Digits(m: nat): (s: string)
    ensures |s| >= 1 && AllDigits(s, 10)
    ensures s[0] != '0' || m == 0
    decreases m
  {
    if m < 10 then [DigitChar(m)]
    else
      var p := Digits(m / 10);
      assert forall i :: 0 <= i < |p| ==> (p + [DigitChar(m % 10)])[i] == p[i];
      p + [DigitChar(m % 10)]
  }

  /** `n.toString()` for an integer `n`. */
  function IntToString(n: int): (r: string)
    ensures |r| >= 1 && (r[0] == '-' <==> n < 0)
    ensures AllDigits(r[if n < 0 then 1 else 0..], 10)
  {
    if n < 0 then "-" + Digits(-n) else Digits(n)
  }

  function Pow10(k: nat): (p: nat)
    ensures p >= 1
  {
    if k == 0 then 1 else 10 * Pow10(k - 1)
  }

  lemma {:induction false} DigitsValueOfDigits(m: nat)
    ensures DigitsValue(Digits(m), 10) == m
    decreases m
  {
    var s := Digits(m);
    if m < 10 {
      assert s[..0] == [];
    } else {
      DigitsValueOfDigits(m / 10);
      assert s[..|s| - 1] == Digits(m / 10);
    }
  }

  /** A number has at most `k` decimal digits exactly when it is below 10^k. */
  lemma {:induction false} DigitsLength(m: nat, k: nat)
    requires k >= 1
    ensures |Digits(m)| <= k <==> m < Pow10(k)
    decreases m
  {
    if m >= 10 {
      if k == 1 {
        assert |Digits(m)| >= 2 by { assert |Digits(m / 10)| >= 1; }
      } else {
        DigitsLength(m / 10, k - 1);
      }
    }
  }

  /** `parseInt(n.toString()) === n`: the rendering of an integer parses back to it. */
  lemma ParseIntOfIntToString(n: int)
    ensures ParseInt(IntToString(n)) == Some(n)
  {
    var m: nat := if n < 0 then -n else n;
    var d := Digits(m);
    DigitsValueOfDigits(m);
    assert d + [] == d;
    if n < 0 {
      var s := "-" + d;
      TrimStartPlain(s);
      assert s[1..] == d;
      MagnitudeDecimal(d, []);
    } else {
      ParseIntDecimal(d, []);
    }
  }

  /** The digit run of a string that starts with a run of digits is that run. */
  lemma {:induction false} DigitRunOfRun(d: string, rest: string, radix: nat)
    requires AllDigits(d, radix)
    requires rest == [] || DigitValue(rest[0], radix).None?
    ensures DigitRun(d + rest, radix) == |d|
    decreases |d|
  {
    if d == [] {
      assert d + rest == rest;
    } else {
      assert (d + rest)[0] == d[0];
      assert (d + rest)[1..] == d[1..] + rest;
      DigitRunOfRun(d[1..], rest, radix);
    }
  }

  /** A run of decimal digits followed by nothing or by a non-digit is read as the run's value. */
  lemma MagnitudeDecimal(d: string, rest: string)
    requires d != [] && AllDigits(d, 10)
    requires rest == [] || DigitValue(rest[0], 10).None?
    requires |d| >= 2 || rest == [] || (rest[0] != 'x' && rest[0] != 'X')
    ensures ParseMagnitude(d + rest) == Some(DigitsValue(d, 10))
  {
    var s := d + rest;
    assert |s| >= 2 ==> s[1] != 'x' && s[1] != 'X' by {
      if |d| >= 2 { assert s[1] == d[1] && DigitValue(d[1], 10).Some?; }
      else if |s| >= 2 { assert s[1] == rest[0]; }
    }
    DigitRunOfRun(d, rest, 10);
    assert s[..|d|] == d;
  }

  lemma DecimalDigitIsPlain(c: char)
    requires DigitValue(c, 10).Some?
    ensures '0' <= c <= '9' && !IsStrWhiteSpace(c)
  {
  }

  lemma TrimStartPlain(s: string)
    requires s != [] && !IsStrWhiteSpace(s[0])
    ensures TrimStart(s) == s
  {
  }

  lemma UnsignedParse(u: string)
    requires u != [] && '0' <= u[0] <= '9'
    ensures ParseSigned(u) == if ParseMagnitude(u).Some? then Some(ParseMagnitude(u).value as int) else None
  {
  }

  /** `parseInt` of decimal digits followed by nothing or by a non-digit. */
  lemma ParseIntDecimal(d: string, rest: string)
    requires d != [] && AllDigits(d, 10)
    requires rest == [] || DigitValue(rest[0], 10).None?
    requires |d| >= 2 || rest == [] || (rest[0] != 'x' && rest[0] != 'X')
    ensures ParseInt(d + rest) == Some(DigitsValue(d, 10))
  {
    var s := d + rest;
    DecimalDigitIsPlain(d[0]);
    assert s[0] == d[0];
    TrimStartPlain(s);
    UnsignedParse(s);
    MagnitudeDecimal(d, rest);
  }

  /** The number of characters of `n.toString()`: a sign, if any, counts as one. */
  lemma RenderedLength(n: int)
    ensures |IntToString(n)| < 4 <==> -100 < n < 1000
    ensures |IntToString(n)| > 5 <==> n <= -10000 || n >= 100000
  {
    var m: nat := if n < 0 then -n else n;
    DigitsLength(m, 2);
    DigitsLength(m, 3);
    DigitsLength(m, 4);
    DigitsLength(m, 5);
  }

  /** A limit of a numeric range, as JavaScript's infinities or a finite number. */
  datatype Limit = NegativeInfinity | PositiveInfinity | Finite(v: real)

  /** `lo <= x && x <= hi` for a finite `x`. */
  predicate InRange(x: real, lo: Limit, hi: Limit)
  {
    (match lo
     case NegativeInfinity => true
     case PositiveInfinity => false
     case Finite(v) => v <= x)
    &&
    (match hi
     case NegativeInfinity => false
     case PositiveInfinity => true
     case Finite(v) => x <= v)
  }
}
