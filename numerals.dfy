/** Decimal digit strings: their value, the canonical rendering of an
    integer (`BigInt.prototype.toString`, `String(n)`) and the integer
    literals `BigInt(s)` accepts. */
module Numerals {
  import opened Wrappers

  predicate IsDigit(c: char) { '0' <= c <= '9' }

  predicate AllDigits(s: string) { forall i :: 0 <= i < |s| ==> IsDigit(s[i]) }

  function DigitValue(c: char): (d: nat)
    requires IsDigit(c)
    ensures d < 10
  {
    c as int - '0' as int
  }

  function DigitChar(d: nat): (c: char)
    requires d < 10
    ensures IsDigit(c) && DigitValue(c) == d
  {
    ('0' as int + d) as char
  }

  function Pow10(n: nat): (r: nat)
    ensures r >= 1
  {
    if n == 0 then 1 else 10 * Pow10(n - 1)
  }

  /** A string of `n` zero digits. */
  function Zeros(n: nat): (z: string)
    ensures |z| == n && AllDigits(z)
    ensures forall i :: 0 <= i < n ==> z[i] == '0'
  {
    seq(n, _ => '0')
  }

  /** The value of a digit string, most significant digit first; "" is 0. */
  function Val(s: string): (v: nat)
    requires AllDigits(s)
    ensures v < Pow10(|s|)
  {
    if s == [] then 0 else 10 * Val(s[..|s| - 1]) + DigitValue(s[|s| - 1])
  }

  /** `v` followed by `n` zero digits: v·10^n (see `ShiftIsProduct`). */
  function Shift(v: nat, n: nat): nat
  {
    if n == 0 then v else 10 * Shift(v, n - 1)
  }

  /** `v` with its `n` lowest digits cut off: ⌊v / 10^n⌋ (see
      `UnshiftIsQuotient`). */
  function Unshift(v: nat, n: nat): nat
  {
    if n == 0 then v else Unshift(v / 10, n - 1)
  }

  lemma {:induction false} ShiftIsProduct(v: nat, n: nat)
    ensures Shift(v, n) == v * Pow10(n)
  {
    if n > 0 {
      ShiftIsProduct(v, n - 1);
      assert v * (10 * Pow10(n - 1)) == 10 * (v * Pow10(n - 1));
    }
  }

  lemma {:induction false} UnshiftIsQuotient(v: nat, n: nat)
    ensures Unshift(v, n) == v / Pow10(n)
  {
    if n > 0 {
      UnshiftIsQuotient(v / 10, n - 1);
      DivTenThen(v, Pow10(n - 1));
    }
  }

  /** Dividing by 10 and then by `b` is dividing by 10·b. */
  lemma DivTenThen(v: nat, b: nat)
    requires b > 0
    ensures v / 10 / b == v / (10 * b)
  {
    var q, r := v / 10, v % 10;
    var q2, r2 := q / b, q % b;
    var m := 10 * b;
    var rest := 10 * r2 + r;
    assert v == 10 * q + r;
    assert q == q2 * b + r2;
    MulDistrib(q2, b, r2);
    assert v == q2 * m + rest;
    assert rest < m by {
      MulLe(r2, b - 1, 10);
    }
    DivUnique(v, m, q2, rest);
  }

  lemma MulDistrib(q: nat, b: nat, r: nat)
    ensures 10 * (q * b + r) == q * (10 * b) + 10 * r
  {
  }

  lemma DivUnique(v: nat, m: nat, q: nat, r: nat)
    requires m > 0 && r < m && v == q * m + r
    ensures v / m == q
  {
    var q2, r2 := v / m, v % m;
    assert q2 * m + r2 == q * m + r;
    if q2 > q {
      MulLe(q + 1, q2, m);
    } else if q2 < q {
      MulLe(q2 + 1, q, m);
    }
  }

  lemma MulLe(a: nat, b: nat, m: nat)
    requires a <= b
    ensures a * m <= b * m
  {
  }

  lemma AllDigitsConcat(a: string, b: string)
    requires AllDigits(a) && AllDigits(b)
    ensures AllDigits(a + b)
  {
    forall i | 0 <= i < |a + b| ensures IsDigit((a + b)[i]) {
      if i >= |a| { assert (a + b)[i] == b[i - |a|]; }
    }
  }

  /** Appending digits shifts the value left by their count. */
  lemma {:induction false} ValConcat(a: string, b: string)
    requires AllDigits(a) && AllDigits(b)
    ensures AllDigits(a + b)
    ensures Val(a + b) == Shift(Val(a), |b|) + Val(b)
  {
    AllDigitsConcat(a, b);
    if b == [] {
      assert a + b == a;
    } else {
      var b' := b[..|b| - 1];
      var ab := a + b;
      assert ab[..|ab| - 1] == a + b';
      assert ab[|ab| - 1] == b[|b| - 1];
      ValConcat(a, b');
    }
  }

  /** Cutting off the last digits divides the value. */
  lemma {:induction false} ValPrefix(s: string, n: nat)
    requires AllDigits(s) && n <= |s|
    ensures AllDigits(s[..n]) && Val(s[..n]) == Unshift(Val(s), |s| - n)
    decreases |s|
  {
    if n < |s| {
      var s' := s[..|s| - 1];
      assert s'[..n] == s[..n];
      ValPrefix(s', n);
      assert Val(s) / 10 == Val(s');
    } else {
      assert s[..n] == s;
    }
  }

  lemma {:induction false} ShiftZero(n: nat)
    ensures Shift(0, n) == 0
  {
    if n > 0 { ShiftZero(n - 1); }
  }

  lemma {:induction false} ValZeros(n: nat)
    ensures Val(Zeros(n)) == 0
  {
    if n > 0 {
      assert Zeros(n)[..n - 1] == Zeros(n - 1);
      ValZeros(n - 1);
    }
  }

  /** Leading zero digits do not change the value. */
  lemma ValLeadingZeros(n: nat, s: string)
    requires AllDigits(s)
    ensures AllDigits(Zeros(n) + s) && Val(Zeros(n) + s) == Val(s)
  {
    ValConcat(Zeros(n), s);
    ValZeros(n);
    ShiftZero(|s|);
  }

  /** The shortest decimal rendering of a natural number. */
  function NatToString(n: nat): string
    decreases n
  {
    if n < 10 then [DigitChar(n)] else NatToString(n / 10) + [DigitChar(n % 10)]
  }

  /** The rendering is a digit string worth `n`, with no leading zero
      unless it is "0". */
  lemma {:induction false} NatToStringDigits(n: nat)
    ensures |NatToString(n)| >= 1 && AllDigits(NatToString(n)) && Val(NatToString(n)) == n
    ensures NatToString(n)[0] == '0' ==> NatToString(n) == "0"
    decreases n
  {
    if n >= 10 {
      var prefix, s := NatToString(n / 10), NatToString(n);
      NatToStringDigits(n / 10);
      assert s == prefix + [DigitChar(n % 10)];
      assert s[..|s| - 1] == prefix;
      assert s[0] == prefix[0];
    }
  }

  /** `BigInt.prototype.toString()` and `String(n)` for an integer: a minus
      sign for negative numbers, then the digits of the magnitude. */
  function IntToString(n: int): string
  {
    if n < 0 then "-" + NatToString(-n) else NatToString(n)
  }

  /** The strings `BigInt(s)` turns into an integer in this model: the empty
      string, or an optional sign followed by one or more decimal digits. */
  predicate IsIntegerLiteral(s: string)
  {
    s == "" ||
    (AllDigits(s)) ||
    (|s| > 1 && (s[0] == '+' || s[0] == '-') && AllDigits(s[1..]))
  }

  /** `BigInt(s)` on a string: its value, or `None` where it throws a
      SyntaxError. */
  function ParseIntegerLiteral(s: string): (r: Option<int>)
    ensures r.Some? <==> IsIntegerLiteral(s)
    ensures r.Some? && AllDigits(s) ==> r.value == Val(s)
    ensures r.Some? && |s| > 0 && s[0] == '-' ==> r.value == -(Val(s[1..]) as int)
    ensures r.Some? && |s| > 0 && s[0] == '+' ==> r.value == Val(s[1..])
  {
    if s == "" then Some(0)
    else if AllDigits(s) then Some(Val(s))
    else if |s| > 1 && s[0] == '-' && AllDigits(s[1..]) then Some(-(Val(s[1..]) as int))
    else if |s| > 1 && s[0] == '+' && AllDigits(s[1..]) then Some(Val(s[1..]))
    else None
  }

  /** Rendering an integer and parsing it back gives the same integer. */
  lemma IntToStringRoundTrip(n: int)
    ensures ParseIntegerLiteral(IntToString(n)) == Some(n)
  {
    var s := IntToString(n);
    if n < 0 {
      NatToStringDigits(-n);
      assert s[1..] == NatToString(-n);
      assert !AllDigits(s) by { assert !IsDigit(s[0]); }
    } else {
      NatToStringDigits(n);
    }
  }
}
