/** `uiAmountToAmount` (jupitor-swaps/src/index.js:59-68): a human-entered
    decimal amount and a decimals count become an exact atomic-unit integer,
    using string operations only. */
module AmountConverter {
  import opened Wrappers
  import opened Numerals

  /** The two exceptions the conversion raises on input within the engine's
      limits (the RangeErrors of a huge repeat count or a huge `BigInt` are
      not modelled). */
  datatype AmountError =
    | NegativeRepeatCount          // `"0".repeat(decimals)` with decimals < 0 throws a RangeError
    | NotAnInteger(literal: string) // `BigInt(normalized)` throws a SyntaxError

  /** `s.split(sep)`: the pieces between separators, left to right. */
  function Split(s: string, sep: char): (parts: seq<string>)
    ensures |parts| >= 1
    decreases |s|
  {
    if s == "" then [""]
    else
      var rest := Split(s[1..], sep);
      if s[0] == sep then [""] + rest else [[s[0]] + rest[0]] + rest[1..]
  }

  /** Joining the pieces with the separator, the inverse of `Split`. */
  function Join(parts: seq<string>, sep: char): string
    requires |parts| >= 1
  {
    if |parts| == 1 then parts[0] else parts[0] + [sep] + Join(parts[1..], sep)
  }

  /** Splitting loses nothing: joining the pieces back gives the input, and
      no piece contains the separator. */
  lemma {:induction false} SplitJoin(s: string, sep: char)
    ensures Join(Split(s, sep), sep) == s
    ensures forall i :: 0 <= i < |Split(s, sep)| ==> sep !in Split(s, sep)[i]
    decreases |s|
  {
    if s != "" {
      var rest := Split(s[1..], sep);
      SplitJoin(s[1..], sep);
      if s[0] == sep {
        assert Split(s, sep)[1..] == rest;
        assert s == [sep] + s[1..];
      } else {
        var parts := Split(s, sep);
        if |rest| == 1 {
          assert s == [s[0]] + s[1..];
        } else {
          assert parts[1..] == rest[1..];
          assert Join(rest, sep) == rest[0] + [sep] + Join(rest[1..], sep);
          assert s == [s[0]] + s[1..];
        }
        forall i | 0 <= i < |parts| ensures sep !in parts[i] {
          if i > 0 { assert parts[i] == rest[i]; }
        }
      }
    }
  }

  /** A piece without the separator, followed by the separator, is split off
      the front. */
  lemma {:induction false} SplitFront(w: string, sep: char, t: string)
    requires sep !in w
    ensures Split(w + [sep] + t, sep) == [w] + Split(t, sep)
    decreases |w|
  {
    if w != "" {
      assert (w + [sep] + t)[1..] == w[1..] + [sep] + t;
      SplitFront(w[1..], sep, t);
      assert [w[0]] + w[1..] == w;
    } else {
      assert w + [sep] + t == [sep] + t;
    }
  }

  /** A string without the separator is a single piece. */
  lemma {:induction false} SplitNone(w: string, sep: char)
    requires sep !in w
    ensures Split(w, sep) == [w]
    decreases |w|
  {
    if w != "" {
      SplitNone(w[1..], sep);
      assert [w[0]] + w[1..] == w;
    }
  }

  /** `parts[0]`: the text before the first point, possibly empty. */
  function WholeDigits(s: string): string
  {
    Split(s, '.')[0]
  }

  /** `|| "0"` applied to a whole part: "0" when it is empty. */
  function WholeOrZero(w: string): string
  {
    if w == "" then "0" else w
  }

  /** `parts[0] || "0"`: the whole part, "0" when empty. */
  function WholePart(s: string): string
  {
    WholeOrZero(WholeDigits(s))
  }

  /** `parts[1] || ""`: the fractional part, "" when there is no point. */
  function FracPart(s: string): string
  {
    var parts := Split(s, '.');
    if |parts| > 1 then parts[1] else ""
  }

  /** `(frac + "0".repeat(decimals)).slice(0, decimals)`. */
  function FitFraction(frac: string, decimals: nat): (f: string)
    ensures |f| == decimals
    ensures |frac| <= decimals ==> f == frac + Zeros(decimals - |frac|)
    ensures |frac| > decimals ==> f == frac[..decimals]
  {
    var padded := frac + Zeros(decimals);
    assert |frac| <= decimals ==> padded[..decimals] == frac + Zeros(decimals - |frac|);
    padded[..decimals]
  }

  /** The number of leading '0' characters. */
  function LeadingZeroCount(s: string): (k: nat)
    ensures k <= |s|
    ensures forall i :: 0 <= i < k ==> s[i] == '0'
    ensures k < |s| ==> s[k] != '0'
  {
    if s == "" || s[0] != '0' then 0 else 1 + LeadingZeroCount(s[1..])
  }

  /** `combined.replace(/^0+(?=\d)|^$/, "0")`. The greedy run of leading
      zeros must be followed by a digit: when it is, the whole run becomes
      one "0"; when it is followed by a non-digit or by the end, the match
      backs off by one zero, so a run of two or more shrinks to "00" before
      that point; a single zero before a non-digit or the end is left alone.
      The empty string becomes "0". */
  function NormalizeLeadingZeros(s: string): string
  {
    if s == "" then "0"
    else
      var k := LeadingZeroCount(s);
      if k == 0 then s
      else if k < |s| && IsDigit(s[k]) then "0" + s[k..]
      else if k >= 2 then "0" + s[k - 1..]
      else s
  }

  /** However many zeros lead, `BigInt` reads the same integer (or fails). */
  lemma ParseAfterZeros(j: nat, t: string)
    requires j >= 1
    ensures ParseIntegerLiteral(Zeros(j) + t) == ParseIntegerLiteral(Zeros(1) + t)
  {
    var a, b := Zeros(j) + t, Zeros(1) + t;
    assert a[0] == '0' && b[0] == '0';
    if AllDigits(t) {
      ValLeadingZeros(j, t);
      ValLeadingZeros(1, t);
    } else {
      var i :| 0 <= i < |t| && !IsDigit(t[i]);
      assert a[j + i] == t[i] && b[1 + i] == t[i];
    }
  }

  /** The rewrite of line 66 never changes what `BigInt` makes of the string. */
  lemma NormalizePreservesValue(s: string)
    ensures ParseIntegerLiteral(NormalizeLeadingZeros(s)) == ParseIntegerLiteral(s)
  {
    if s != "" {
      var k := LeadingZeroCount(s);
      if k > 0 {
        var j := if k < |s| && IsDigit(s[k]) then k else if k >= 2 then k - 1 else 0;
        if j > 0 {
          assert s == Zeros(j) + s[j..];
          assert NormalizeLeadingZeros(s) == Zeros(1) + s[j..];
          ParseAfterZeros(j, s[j..]);
        }
      }
    }
  }

  /** `whole + fracPadded`, the string handed to the normalisation. */
  function Combined(s: string, decimals: nat): string
  {
    WholePart(s) + FitFraction(FracPart(s), decimals)
  }

  /** `uiAmountToAmount(s, decimals)`: the atomic amount, or the exception
      the source raises. It fails exactly for a negative decimals count and
      for a combined string that is not an integer literal. */
  function UiAmountToAmount(s: string, decimals: int): (r: Result<int, AmountError>)
    ensures decimals < 0 ==> r == Failure(NegativeRepeatCount)
    ensures decimals >= 0 ==>
      (r.Success? <==> IsIntegerLiteral(Combined(s, decimals)))
  {
    if decimals < 0 then Failure(NegativeRepeatCount)
    else
      var combined := Combined(s, decimals);
      var normalized := NormalizeLeadingZeros(combined);
      NormalizePreservesValue(combined);
      match ParseIntegerLiteral(normalized)
      case Some(v) => Success(v)
      case None => Failure(NotAnInteger(normalized))
  }

  /** With a decimal point, the combined string is the whole part followed by
      the fitted fraction. */
  lemma CombinedWithPoint(w: string, f: string, d: nat)
    requires '.' !in w && '.' !in f
    ensures Combined(w + "." + f, d) == WholeOrZero(w) + FitFraction(f, d)
  {
    SplitFront(w, '.', f);
    SplitNone(f, '.');
  }

  lemma NoPointInDigits(w: string)
    requires AllDigits(w)
    ensures '.' !in w
  {
    assert forall c :: c in w ==> IsDigit(c);
  }

  /** A whole part followed by fraction digits reads as their shifted sum. */
  lemma ParseDigits(w: string, ff: string)
    requires AllDigits(w) && AllDigits(ff)
    ensures ParseIntegerLiteral(WholeOrZero(w) + ff) == Some(Shift(Val(w), |ff|) + Val(ff))
  {
    if w == "" {
      ParseEmptyWhole(w, ff);
    } else {
      ParseConcat(w, ff);
    }
  }

  lemma ParseEmptyWhole(w: string, ff: string)
    requires AllDigits(ff) && w == ""
    ensures ParseIntegerLiteral(WholeOrZero(w) + ff) == Some(Shift(Val(w), |ff|) + Val(ff))
  {
    ValLeadingZeros(1, ff);
    assert Zeros(1) == "0";
    assert Val(w) == 0;
    ShiftZero(|ff|);
  }

  lemma ParseConcat(a: string, b: string)
    requires AllDigits(a) && AllDigits(b)
    ensures ParseIntegerLiteral(a + b) == Some(Shift(Val(a), |b|) + Val(b))
  {
    ValConcat(a, b);
  }

  /** Whatever `BigInt` reads from the combined string is the amount. */
  lemma AmountFromLiteral(s: string, d: nat, c: string, v: int)
    requires Combined(s, d) == c && ParseIntegerLiteral(c) == Some(v)
    ensures UiAmountToAmount(s, d) == Success(v)
  {
    NormalizePreservesValue(c);
  }

  /** The amount depends on the input only through the combined string. */
  lemma AmountFromCombined(s1: string, s2: string, d: int)
    requires d >= 0 ==> Combined(s1, d) == Combined(s2, d)
    ensures UiAmountToAmount(s1, d) == UiAmountToAmount(s2, d)
  {
  }

  /** The fraction's contribution in atomic units: its digits shifted left
      when it has at most `d` of them, and its extra digits cut off (never
      rounded) when it has more. */
  function FractionAmount(f: string, d: nat): nat
    requires AllDigits(f)
  {
    if |f| <= d then Shift(Val(f), d - |f|) else Unshift(Val(f), |f| - d)
  }

  /** The atomic amount a decimal `w.f` with `d` decimals denotes. */
  function ReferenceAmount(w: string, f: string, d: nat): nat
    requires AllDigits(w) && AllDigits(f)
  {
    Shift(Val(w), d) + FractionAmount(f, d)
  }

  /** The reference amount in ordinary arithmetic:
      whole·10^d + frac·10^(d−len(frac)) for a short fraction, and
      whole·10^d + ⌊frac / 10^(len(frac)−d)⌋ for a long one. */
  lemma ReferenceArithmetic(w: string, f: string, d: nat)
    requires AllDigits(w) && AllDigits(f)
    ensures |f| <= d ==> ReferenceAmount(w, f, d) == Val(w) * Pow10(d) + Val(f) * Pow10(d - |f|)
    ensures |f| > d ==> ReferenceAmount(w, f, d) == Val(w) * Pow10(d) + Val(f) / Pow10(|f| - d)
  {
    ShiftIsProduct(Val(w), d);
    if |f| <= d {
      ShiftIsProduct(Val(f), d - |f|);
    } else {
      UnshiftIsQuotient(Val(f), |f| - d);
    }
  }

  lemma FitFractionDigits(f: string, d: nat)
    requires AllDigits(f)
    ensures AllDigits(FitFraction(f, d))
  {
    if |f| <= d { AllDigitsConcat(f, Zeros(d - |f|)); }
  }

  /** Padding or slicing the fraction to `d` digits yields its contribution. */
  lemma FitFractionValue(f: string, d: nat)
    requires AllDigits(f)
    ensures AllDigits(FitFraction(f, d)) && Val(FitFraction(f, d)) == FractionAmount(f, d)
  {
    FitFractionDigits(f, d);
    if |f| <= d {
      ValConcat(f, Zeros(d - |f|));
      ValZeros(d - |f|);
    } else {
      ValPrefix(f, d);
    }
  }

  /** The combined string of a digit input is a digit literal worth the
      reference amount. */
  lemma CombinedLiteral(s: string, d: nat)
    requires AllDigits(WholeDigits(s)) && AllDigits(FracPart(s))
    ensures ParseIntegerLiteral(Combined(s, d)) == Some(ReferenceAmount(WholeDigits(s), FracPart(s), d))
  {
    var w, f := WholeDigits(s), FracPart(s);
    assert Combined(s, d) == WholeOrZero(w) + FitFraction(f, d);
    FitFractionValue(f, d);
    ParseDigits(w, FitFraction(f, d));
  }

  /** For an input whose text before the first point and between the first
      and second points are digit strings (either may be empty, and the
      point may be missing), the conversion succeeds with exactly the
      reference amount. */
  lemma AmountMatchesReference(s: string, d: nat)
    requires AllDigits(WholeDigits(s)) && AllDigits(FracPart(s))
    ensures UiAmountToAmount(s, d) == Success(ReferenceAmount(WholeDigits(s), FracPart(s), d))
  {
    CombinedLiteral(s, d);
    AmountFromLiteral(s, d, Combined(s, d), ReferenceAmount(WholeDigits(s), FracPart(s), d));
  }

  lemma SplitAtPoint(w: string, f: string)
    requires AllDigits(w) && AllDigits(f)
    ensures Split(w + "." + f, '.') == [w, f]
  {
    NoPointInDigits(w);
    NoPointInDigits(f);
    SplitFront(w, '.', f);
    SplitNone(f, '.');
  }

  /** `w.f` converts to the reference amount of `w` and `f`. */
  lemma AmountOfDecimal(w: string, f: string, d: nat)
    requires AllDigits(w) && AllDigits(f)
    ensures UiAmountToAmount(w + "." + f, d) == Success(ReferenceAmount(w, f, d))
  {
    SplitAtPoint(w, f);
    AmountMatchesReference(w + "." + f, d);
  }

  /** Without a decimal point the whole string is the whole part:
      whole·10^d. */
  lemma AmountOfWhole(w: string, d: nat)
    requires AllDigits(w)
    ensures UiAmountToAmount(w, d) == Success(Shift(Val(w), d))
  {
    NoPointInDigits(w);
    SplitNone(w, '.');
    WholeReference(w, d);
    AmountMatchesReference(w, d);
  }

  lemma WholeReference(w: string, d: nat)
    requires AllDigits(w)
    ensures ReferenceAmount(w, "", d) == Shift(Val(w), d)
  {
    ShiftZero(d);
  }

  /** An empty whole part counts as "0": `.f` converts to the fraction's
      contribution alone. */
  lemma AmountOfFraction(f: string, d: nat)
    requires AllDigits(f)
    ensures UiAmountToAmount("." + f, d) == Success(FractionAmount(f, d))
  {
    var s := "." + f;
    assert s == "" + "." + f;
    SplitAtPoint("", f);
    FractionReference(f, d);
    AmountMatchesReference(s, d);
  }

  lemma FractionReference(f: string, d: nat)
    requires AllDigits(f)
    ensures ReferenceAmount("", f, d) == FractionAmount(f, d)
  {
    ShiftZero(d);
  }

  /** Anything after a second decimal point is ignored. */
  lemma AmountIgnoresSecondPoint(w: string, f: string, rest: string, d: int)
    requires '.' !in w && '.' !in f
    ensures UiAmountToAmount(w + "." + f + "." + rest, d) == UiAmountToAmount(w + "." + f, d)
  {
    var long, short := w + "." + f + "." + rest, w + "." + f;
    assert long == w + ['.'] + (f + ['.'] + rest);
    SplitFront(w, '.', f + ['.'] + rest);
    SplitFront(f, '.', rest);
    CombinedWithPointSplit(w, f, rest, d);
    AmountFromCombined(long, short, d);
  }

  lemma CombinedWithPointSplit(w: string, f: string, rest: string, d: int)
    requires '.' !in w && '.' !in f
    ensures d >= 0 ==> Combined(w + "." + f + "." + rest, d) == Combined(w + "." + f, d)
  {
    if d >= 0 {
      assert w + "." + f + "." + rest == w + ['.'] + (f + ['.'] + rest);
      SplitFront(w, '.', f + ['.'] + rest);
      SplitFront(f, '.', rest);
      CombinedWithPoint(w, f, d);
    }
  }

  /** ("1.5", 9) gives 1500000000. */
  lemma ExampleExact(s: string)
    requires s == "1.5"
    ensures UiAmountToAmount(s, 9) == Success(1500000000)
  {
    var w, f := s[..1], s[2..];
    assert s == w + "." + f;
    ExampleExactReference(w, f);
    AmountOfDecimal(w, f, 9);
  }

  lemma ExampleExactReference(w: string, f: string)
    requires w == "1" && f == "5"
    ensures AllDigits(w) && AllDigits(f) && ReferenceAmount(w, f, 9) == 1500000000
  {
    assert w == [] + ['1'] && f == [] + ['5'];
    ValAppend([], '1');
    ValAppend([], '5');
    ShiftIsProduct(Val(w), 9);
    ShiftIsProduct(Val(f), 8);
  }

  /** ("1.23456789123", 6) gives 1234567: the last five digits are dropped. */
  lemma ExampleTruncated(s: string)
    requires s == "1.23456789123"
    ensures UiAmountToAmount(s, 6) == Success(1234567)
  {
    var w, f := s[..1], s[2..];
    assert s == w + "." + f;
    ExampleTruncatedReference(w, f);
    AmountOfDecimal(w, f, 6);
  }

  lemma ExampleTruncatedReference(w: string, f: string)
    requires w == "1" && f == "23456789123"
    ensures AllDigits(w) && AllDigits(f) && ReferenceAmount(w, f, 6) == 1234567
  {
    assert w == [] + ['1'];
    ValAppend([], '1');
    ShiftIsProduct(Val(w), 6);
    assert AllDigits(f);
    var kept := FitFraction(f, 6);
    assert kept == "234567";
    ValOfDigits234567(kept);
    FitFractionValue(f, 6);
  }

  lemma ValOfDigits234567(t: string)
    requires t == "234567"
    ensures AllDigits(t) && Val(t) == 234567
  {
    var t1, t2, t3, t4, t5 := t[..1], t[..2], t[..3], t[..4], t[..5];
    assert t1 == [] + ['2'];
    ValAppend([], '2');
    assert Val(t1) == 2;
    assert t2 == t1 + ['3'];
    ValAppend(t1, '3');
    assert Val(t2) == 23;
    assert t3 == t2 + ['4'];
    ValAppend(t2, '4');
    assert Val(t3) == 234;
    assert t4 == t3 + ['5'];
    ValAppend(t3, '5');
    assert Val(t4) == 2345;
    assert t5 == t4 + ['6'];
    ValAppend(t4, '6');
    assert Val(t5) == 23456;
    assert t == t5 + ['7'];
    ValAppend(t5, '7');
  }

  lemma ValAppend(s: string, c: char)
    requires AllDigits(s) && IsDigit(c)
    ensures AllDigits(s + [c]) && Val(s + [c]) == 10 * Val(s) + DigitValue(c)
  {
    assert (s + [c])[..|s|] == s;
  }
}
