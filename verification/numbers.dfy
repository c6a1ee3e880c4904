/**
 * Decimal numerals: printing an integer, JavaScript's `parseInt` (radix 10),
 * and the integer form of a JSON number.
 *
 * Numbers are unbounded integers here; fractions, exponents and the `0x`
 * prefix are not part of this model.
 */
module Numbers {
  import opened Wrappers
  import Text

  predicate IsDigit(c: char) {
    '0' <= c <= '9'
  }

  predicate AllDigits(s: string) {
    forall i :: 0 <= i < |s| ==> IsDigit(s[i])
  }

  function DigitChar(d: nat): char
    requires d < 10
  {
    ('0' as int + d) as char
  }

  function DigitValue(c: char): nat
    requires IsDigit(c)
  {
    c as int - '0' as int
  }

  /** The decimal numeral of `n`, most significant digit first, without leading zeros. */
  function NatToString(n: nat): (r: string)
    ensures |r| >= 1 && AllDigits(r)
  {
    if n < 10 then [DigitChar(n)] else NatToString(n / 10) + [DigitChar(n % 10)]
  }

  /** `String(n)` for an integer. */
  function IntToString(n: int): string {
    if n < 0 then "-" + NatToString(-n) else NatToString(n)
  }

  /** The value of a string of digits. */
  function DigitsValue(d: string): nat
    requires AllDigits(d)
  {
    if d == [] then 0 else DigitsValue(d[..|d| - 1]) * 10 + DigitValue(d[|d| - 1])
  }

  /** The length of the run of digits that starts `s`. */
  function DigitRun(s: string): (n: nat)
    ensures n <= |s| && AllDigits(s[..n])
    ensures n < |s| ==> !IsDigit(s[n])
  {
    if s == [] || !IsDigit(s[0]) then 0
    else
      var n := 1 + DigitRun(s[1..]);
      assert s[..n] == [s[0]] + s[1..][..n - 1];
      n
  }

  lemma {:induction false} NatToStringValue(n: nat)
    ensures DigitsValue(NatToString(n)) == n
  {
    if n >= 10 {
      NatToStringValue(n / 10);
      var s := NatToString(n);
      assert s[..|s| - 1] == NatToString(n / 10);
    }
  }

  lemma {:induction false} NatToStringLead(n: nat)
    requires n > 0
    ensures NatToString(n)[0] != '0'
  {
    if n >= 10 {
      NatToStringLead(n / 10);
    }
  }

  lemma {:induction false} DigitRunPrefix(d: string, rest: string)
    requires AllDigits(d)
    requires rest == [] || !IsDigit(rest[0])
    ensures DigitRun(d + rest) == |d|
  {
    if d != [] {
      assert (d + rest)[1..] == d[1..] + rest;
      DigitRunPrefix(d[1..], rest);
    } else {
      assert d + rest == rest;
    }
  }

  function SkipSpaces(s: string): (r: string)
    ensures |r| <= |s|
  {
    if s != [] && Text.IsJsSpace(s[0]) then SkipSpaces(s[1..]) else s
  }

  /**
   * `parseInt(s)`: leading white space, an optional sign, then the longest run of
   * digits; whatever follows is ignored. No digit at all gives `NaN`, here `None`.
   */
  function ParseInt(s: string): Option<int> {
    ParseSigned(SkipSpaces(s))
  }

  /** The sign and digits of `parseInt`, once the white space is gone. */
  function ParseSigned(t: string): Option<int> {
    if t != [] && t[0] == '-' then
      match ReadNat(t[1..])
      case None => None
      case Some(v) => Some(-(v as int))
    else if t != [] && t[0] == '+' then ReadNat(t[1..])
    else ReadNat(t)
  }

  /** The value of the run of digits that starts `u`, or `None` when there is none. */
  function ReadNat(u: string): Option<int> {
    var n := DigitRun(u);
    if n == 0 then None else Some(DigitsValue(u[..n]))
  }

  /** `parseInt(s) || 0`: `NaN` (and 0 itself) become 0. */
  function ParseIntOrZero(s: string): int {
    ParseInt(s).GetOr(0)
  }

  /** What `parseInt` reads back from a printed integer is that integer. */
  lemma ParseIntRoundTrip(n: int)
    ensures ParseInt(IntToString(n)) == Some(n)
  {
    var m: nat := if n < 0 then -n else n;
    var d := NatToString(m);
    NatToStringValue(m);
    ReadNatDigits(d);
    if n < 0 {
      ParseNegative(d, m);
    } else {
      ParsePlain(d);
    }
  }

  /** A run of digits with nothing after it is read as its value. */
  lemma ReadNatDigits(d: string)
    requires |d| >= 1 && AllDigits(d)
    ensures ReadNat(d) == Some(DigitsValue(d) as int)
  {
    DigitRunPrefix(d, []);
    assert d + [] == d;
    assert d[..|d|] == d;
  }

  /** Text that starts with a digit is read by `parseInt` as its digits. */
  lemma ParsePlain(d: string)
    requires |d| >= 1 && IsDigit(d[0])
    ensures ParseInt(d) == ReadNat(d)
  {
    assert !Text.IsJsSpace(d[0]);
    assert SkipSpaces(d) == d;
  }

  /** '-' followed by digits is read by `parseInt` as the negated digits. */
  lemma ParseNegative(d: string, v: int)
    requires ReadNat(d) == Some(v)
    ensures ParseInt("-" + d) == Some(-v)
  {
    var md := "-" + d;
    assert md[0] == '-' && md[1..] == d;
    assert !Text.IsJsSpace(md[0]);
    assert SkipSpaces(md) == md;
  }

  /** A string with no digit in it is not a number to `parseInt`. */
  lemma ParseIntNoDigits(s: string)
    requires forall i :: 0 <= i < |s| ==> !IsDigit(s[i])
    ensures ParseInt(s) == None
  {
    var t := SkipSpaces(s);
    SkipSpacesSuffix(s);
    var u := if t != [] && (t[0] == '-' || t[0] == '+') then t[1..] else t;
    assert u == [] || !IsDigit(u[0]) by {
      if u != [] {
        assert u[0] == s[|s| - |u|];
      }
    }
    assert DigitRun(u) == 0;
  }

  lemma {:induction false} SkipSpacesSuffix(s: string)
    ensures SkipSpaces(s) == s[|s| - |SkipSpaces(s)|..]
  {
    if s != [] && Text.IsJsSpace(s[0]) {
      SkipSpacesSuffix(s[1..]);
    }
  }

  /**
   * The integer at the start of JSON text: an optional '-', then either a single
   * '0' or a non-zero digit followed by more digits. Returns the rest of the text.
   */
  function ParseJsonInt(s: string): (r: Option<(int, string)>)
    ensures r.Some? ==> |r.value.1| < |s|
  {
    if s != [] && s[0] == '-' then
      match JsonNat(s[1..])
      case None => None
      case Some((v, rest)) => Some((-v, rest))
    else JsonNat(s)
  }

  /** The unsigned part of a JSON integer and the text after it. */
  function JsonNat(t: string): (r: Option<(int, string)>)
    ensures r.Some? ==> |r.value.1| < |t|
  {
    if t == [] || !IsDigit(t[0]) then None
    else if t[0] == '0' then Some((0, t[1..]))
    else
      var n := DigitRun(t);
      Some((DigitsValue(t[..n]) as int, t[n..]))
  }

  /** A printed integer reads back as itself, provided the text after it does not continue the numeral. */
  lemma JsonIntRoundTrip(n: int, rest: string)
    requires rest == [] || !IsDigit(rest[0])
    ensures ParseJsonInt(IntToString(n) + rest) == Some((n, rest))
  {
    var m: nat := if n < 0 then -n else n;
    NatToStringJson(m);
    var d := NatToString(m);
    JsonNatDigits(d, rest);
    if n < 0 {
      JsonMinus(d, m, rest);
    } else {
      assert (d + rest)[0] == d[0];
      JsonPlain(d + rest);
    }
  }

  /** The numeral of a natural number is a JSON numeral: no leading zero, and it has that value. */
  lemma NatToStringJson(m: nat)
    ensures NatToString(m)[0] == '0' ==> |NatToString(m)| == 1
    ensures DigitsValue(NatToString(m)) == m
  {
    if m > 0 {
      NatToStringLead(m);
    }
    NatToStringValue(m);
  }

  /** Text that starts with a digit is read by `ParseJsonInt` as its unsigned part. */
  lemma JsonPlain(t: string)
    requires t != [] && IsDigit(t[0])
    ensures ParseJsonInt(t) == JsonNat(t)
  {
  }

  /** '-' in front of JSON text negates the integer read after it. */
  lemma JsonMinus(d: string, v: int, rest: string)
    requires JsonNat(d + rest) == Some((v, rest))
    ensures ParseJsonInt("-" + d + rest) == Some((-v, rest))
  {
    var t := d + rest;
    var mt := "-" + d + rest;
    assert mt == "-" + t;
    assert mt[0] == '-' && mt[1..] == t;
  }

  /** A JSON numeral (no leading zero) followed by text that does not continue it. */
  lemma JsonNatDigits(d: string, rest: string)
    requires |d| >= 1 && AllDigits(d) && (d[0] == '0' ==> |d| == 1)
    requires rest == [] || !IsDigit(rest[0])
    ensures JsonNat(d + rest) == Some((DigitsValue(d) as int, rest))
  {
    if d[0] == '0' {
      JsonNatZero(d, rest);
    } else {
      JsonNatRun(d, rest);
    }
  }

  lemma JsonNatZero(d: string, rest: string)
    requires d == "0"
    ensures JsonNat(d + rest) == Some((0, rest))
  {
    var t := d + rest;
    assert t[0] == '0' && t[1..] == rest;
  }

  lemma JsonNatRun(d: string, rest: string)
    requires |d| >= 1 && AllDigits(d) && d[0] != '0'
    requires rest == [] || !IsDigit(rest[0])
    ensures JsonNat(d + rest) == Some((DigitsValue(d) as int, rest))
  {
    var t := d + rest;
    assert t[0] == d[0];
    DigitRunPrefix(d, rest);
    assert t[..|d|] == d;
    assert t[|d|..] == rest;
  }


}
