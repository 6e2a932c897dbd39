/**
 * Decimal amounts as the transaction form writes and reads them: the amount-field
 * sanitiser, `split('.')`, `toFixed(2)` and `parseFloat` on digit strings.
 */
module Decimal {
  import opened Options
  import opened Seqs

  predicate IsDigit(c: char) { '0' <= c <= '9' }

  predicate IsAmountChar(c: char) { IsDigit(c) || c == '.' }

  predicate AllDigits(s: string) { forall k :: 0 <= k < |s| ==> IsDigit(s[k]) }

  predicate AllAmountChars(s: string) { forall k :: 0 <= k < |s| ==> IsAmountChar(s[k]) }

  /** `value.replace(/[^0-9.]/g, '')`: every character other than a digit or '.' dropped. */
  function Sanitize(s: string): (r: string)
    ensures forall k :: 0 <= k < |r| ==> IsAmountChar(r[k])
    ensures |s| == 1 ==> r == if IsAmountChar(s[0]) then s else []
    ensures AllAmountChars(s) ==> r == s
  {
    FilterSound(s, IsAmountChar);
    assert AllAmountChars(s) ==> Filter(s, IsAmountChar) == s by {
      if AllAmountChars(s) { FilterKeepsAll(s, IsAmountChar); }
    }
    Filter(s, IsAmountChar)
  }

  /**
   * The sanitiser works character by character: what it keeps stays in its order.  With
   * the one-character case of `Sanitize` this fixes its result on every input.
   */
  lemma SanitizeAppend(a: string, b: string)
    ensures Sanitize(a + b) == Sanitize(a) + Sanitize(b)
  {
    FilterAppend(a, b, IsAmountChar);
  }

  /** Every digit and point of the input is kept, as often as it occurs; nothing else is. */
  lemma SanitizeCount(s: string, c: char)
    ensures multiset(Sanitize(s))[c] == if IsAmountChar(c) then multiset(s)[c] else 0
  {
    FilterCount(s, IsAmountChar, c);
  }

  /** `s.split(c)`: the maximal runs between separators, always at least one (possibly empty). */
  function Split(s: string, c: char): (parts: seq<string>)
    ensures |parts| >= 1
  {
    if s == [] then [""] else Extend(Split(s[..|s| - 1], c), s[|s| - 1], c)
  }

  /** The parts after reading one more character: a separator opens a new empty part. */
  function Extend(ps: seq<string>, x: char, c: char): (r: seq<string>)
    requires |ps| >= 1
    ensures |r| >= 1
  {
    if x == c then ps + [""] else ps[..|ps| - 1] + [ps[|ps| - 1] + [x]]
  }

  lemma ExtendAppend(pa: seq<string>, pb: seq<string>, x: char, c: char)
    requires |pb| >= 1
    ensures Extend(pa + pb, x, c) == pa + Extend(pb, x, c)
  {
    if x != c {
      var ps := pa + pb;
      assert ps[..|ps| - 1] == pa + pb[..|pb| - 1];
    }
  }

  /** No part that `split` returns holds the separator. */
  lemma {:induction false} SplitPartsAvoidSeparator(s: string, c: char)
    ensures forall p :: p in Split(s, c) ==> c !in p
  {
    if s != [] {
      var s', x := s[..|s| - 1], s[|s| - 1];
      SplitPartsAvoidSeparator(s', c);
      var ps := Split(s', c);
      if x != c {
        var last := ps[|ps| - 1] + [x];
        assert c !in ps[|ps| - 1];
        assert c !in last;
        assert forall p :: p in ps[..|ps| - 1] ==> p in ps;
      }
    }
  }

  /** A string without the separator is one part. */
  lemma {:induction false} SplitNoSeparator(s: string, c: char)
    requires c !in s
    ensures Split(s, c) == [s]
  {
    if s != [] {
      assert c !in s[..|s| - 1] by { assert forall x :: x in s[..|s| - 1] ==> x in s; }
      SplitNoSeparator(s[..|s| - 1], c);
      assert s == s[..|s| - 1] + [s[|s| - 1]];
    }
  }

  lemma SplitSnoc(s: string, x: char, c: char)
    ensures Split(s + [x], c) == Extend(Split(s, c), x, c)
  {
    assert (s + [x])[..|s|] == s;
  }

  /** A separator cuts the parts of what precedes it from the parts of what follows it. */
  lemma {:induction false} SplitAtSeparator(a: string, b: string, c: char)
    ensures Split(a + [c] + b, c) == Split(a, c) + Split(b, c)
    decreases |b|
  {
    if b == [] {
      SplitSnoc(a, c, c);
      assert a + [c] + b == a + [c];
    } else {
      var b', x := b[..|b| - 1], b[|b| - 1];
      var s' := a + [c] + b';
      calc {
        Split(a + [c] + b, c);
        { assert a + [c] + b == s' + [x]; }
        Split(s' + [x], c);
        { SplitSnoc(s', x, c); }
        Extend(Split(s', c), x, c);
        { SplitAtSeparator(a, b', c); }
        Extend(Split(a, c) + Split(b', c), x, c);
        { ExtendAppend(Split(a, c), Split(b', c), x, c); }
        Split(a, c) + Extend(Split(b', c), x, c);
        { SplitSnoc(b', x, c); assert b' + [x] == b; }
        Split(a, c) + Split(b, c);
      }
    }
  }

  /** Where `c` first occurs in `s`. */
  function IndexOf(s: string, c: char): (i: nat)
    requires c in s
    ensures i < |s| && s[i] == c
    ensures forall k :: 0 <= k < i ==> s[k] != c
  {
    if s[0] == c then 0 else 1 + IndexOf(s[1..], c)
  }

  /**
   * The test `handleAmountChange` applies to the cleaned string: it is refused when
   * `split('.')` gives more than two parts, or a second part longer than two.
   */
  predicate AmountAccepted(cleaned: string) {
    var parts := Split(cleaned, '.');
    !(|parts| > 2) && !(|parts| >= 2 && |parts[1]| > 2)
  }

  /** The same test stated on positions: at most one '.', followed by at most two characters. */
  predicate AtMostTwoDecimals(s: string) {
    (forall i, j :: 0 <= i < j < |s| && s[i] == '.' ==> s[j] != '.')
    && (forall i :: 0 <= i < |s| && s[i] == '.' ==> |s| - 1 - i <= 2)
  }

  lemma AmountAcceptedMeaning(s: string)
    ensures AmountAccepted(s) <==> AtMostTwoDecimals(s)
  {
    if '.' !in s {
      SplitNoSeparator(s, '.');
    } else {
      var i := IndexOf(s, '.');
      var b := s[i + 1..];
      if '.' in b {
        var j := IndexOf(b, '.');
        TwoPointsRefused(s, i, i + 1 + j);
      } else {
        forall k | 0 <= k < |s| && k != i ensures s[k] != '.' {
          if k > i { assert s[k] == b[k - i - 1]; }
        }
        OnePoint(s, i);
      }
    }
  }

  lemma TwoPointsRefused(s: string, i: int, j: int)
    requires 0 <= i < j < |s| && s[i] == '.' && s[j] == '.'
    ensures !AmountAccepted(s) && !AtMostTwoDecimals(s)
  {
    var a, b := s[..i], s[i + 1..];
    assert s == a + ['.'] + b;
    SplitAtSeparator(a, b, '.');
    assert b[j - i - 1] == '.';
    SplitHasTwoParts(b, '.');
  }

  lemma OnePoint(s: string, i: int)
    requires 0 <= i < |s| && s[i] == '.'
    requires forall k :: 0 <= k < |s| && k != i ==> s[k] != '.'
    ensures AmountAccepted(s) <==> |s| - 1 - i <= 2
    ensures AtMostTwoDecimals(s) <==> |s| - 1 - i <= 2
  {
    OnePointSplit(s, i);
  }

  lemma OnePointSplit(s: string, i: int)
    requires 0 <= i < |s| && s[i] == '.'
    requires forall k :: 0 <= k < |s| && k != i ==> s[k] != '.'
    ensures Split(s, '.') == [s[..i], s[i + 1..]]
  {
    var a, b := s[..i], s[i + 1..];
    assert s == a + ['.'] + b;
    assert '.' !in a by {
      forall k | 0 <= k < |a| ensures a[k] != '.' { assert a[k] == s[k]; }
    }
    assert '.' !in b by {
      forall k | 0 <= k < |b| ensures b[k] != '.' { assert b[k] == s[i + 1 + k]; }
    }
    SplitAtSeparator(a, b, '.');
    SplitNoSeparator(a, '.');
    SplitNoSeparator(b, '.');
  }

  /** A string holding the separator splits into at least two parts. */
  lemma SplitHasTwoParts(s: string, c: char)
    requires c in s
    ensures |Split(s, c)| >= 2
  {
    var i := IndexOf(s, c);
    assert s == s[..i] + [c] + s[i + 1..];
    SplitAtSeparator(s[..i], s[i + 1..], c);
  }

  // ------------------------------------------------------------- digits

  function DigitValue(c: char): nat
    requires IsDigit(c)
  {
    c as int - '0' as int
  }

  function DigitChar(d: nat): char
    requires d < 10
  {
    ('0' as int + d) as char
  }

  /** The number a string of decimal digits denotes ("" denotes 0). */
  function DigitsValue(s: string): nat
    requires AllDigits(s)
  {
    if s == [] then 0 else DigitsValue(s[..|s| - 1]) * 10 + DigitValue(s[|s| - 1])
  }

  function Pow10(k: nat): (p: nat)
    ensures p >= 1
  {
    if k == 0 then 1 else 10 * Pow10(k - 1)
  }

  /** The shortest decimal numeral of `n`. */
  function NatToDigits(n: nat): (s: string)
    ensures |s| >= 1
    ensures AllDigits(s)
  {
    if n < 10 then [DigitChar(n)] else NatToDigits(n / 10) + [DigitChar(n % 10)]
  }

  lemma {:induction false} DigitsRoundTrip(n: nat)
    ensures DigitsValue(NatToDigits(n)) == n
  {
    if n >= 10 {
      DigitsRoundTrip(n / 10);
      var s := NatToDigits(n);
      assert s[..|s| - 1] == NatToDigits(n / 10);
    }
  }

  /**
   * `parseFloat` on a string of digits with at most one '.' and at least one digit;
   * anything else reads as NaN (None).
   */
  function ParseUnsigned(s: string): (r: Option<real>)
    ensures r.Some? ==> AllAmountChars(s) && r.value >= 0.0
  {
    if !(AllAmountChars(s)) then None
    else
      var parts := Split(s, '.');
      if |parts| > 2 then None
      else
        var whole := parts[0];
        var frac := if |parts| == 2 then parts[1] else "";
        if whole == "" && frac == "" then None
        else
          DigitsOfParts(s);
          Some(DigitsValue(whole) as real + DigitsValue(frac) as real / Pow10(|frac|) as real)
  }

  /**
   * `parseFloat` on the amount text the form can hold: an unsigned amount, or one with a
   * leading '-' (what `toString` and `toFixed(2)` write for a negative number).
   */
  function ParseDecimal(s: string): (r: Option<real>)
    ensures AllAmountChars(s) ==> r == ParseUnsigned(s)
    ensures r.Some? && r.value < 0.0 ==> |s| > 0 && s[0] == '-'
  {
    if |s| > 0 && s[0] == '-' then
      var u := ParseUnsigned(s[1..]);
      if u.Some? then Some(-u.value) else None
    else ParseUnsigned(s)
  }

  /** A leading '-' negates what the rest reads as, and reads as nothing when the rest does. */
  lemma ParseDecimalNegates(s: string)
    requires AllAmountChars(s)
    ensures ParseDecimal("-" + s).Some? <==> ParseDecimal(s).Some?
    ensures ParseDecimal(s).Some? ==> ParseDecimal("-" + s).value == -ParseDecimal(s).value
  {
    assert ("-" + s)[0] == '-' && ("-" + s)[1..] == s;
  }

  /** Every part of a clean amount string, split at its points, is a digit string. */
  lemma {:induction false} DigitsOfParts(s: string)
    requires AllAmountChars(s)
    ensures forall p :: p in Split(s, '.') ==> AllDigits(p)
  {
    if s != [] {
      var s', x := s[..|s| - 1], s[|s| - 1];
      DigitsOfParts(s');
      var ps := Split(s', '.');
      if x != '.' {
        var last := ps[|ps| - 1] + [x];
        assert AllDigits(ps[|ps| - 1]);
        assert AllDigits(last);
        assert forall p :: p in ps[..|ps| - 1] ==> p in ps;
      }
    }
  }

  // ------------------------------------------------------------- toFixed(2)

  /** The whole number of cents nearest to `a` >= 0, halves rounded up (`toFixed` picks the larger n). */
  function RoundCents(a: real): (n: nat)
    requires a >= 0.0
    ensures (n as real) - 0.5 <= a * 100.0 < (n as real) + 0.5
  {
    (a * 100.0 + 0.5).Floor
  }

  /** `n` cents written with two decimals: "0.05", "12.50". */
  function FormatCents(n: nat): string {
    NatToDigits(n / 100) + "." + [DigitChar(n % 100 / 10), DigitChar(n % 10)]
  }

  /** `x.toFixed(2)`: the sign, then |x| rounded to cents and written with two decimals. */
  function ToFixed2(x: real): string {
    if x < 0.0 then "-" + FormatCents(RoundCents(-x)) else FormatCents(RoundCents(x))
  }

  /** Reading back what `toFixed(2)` wrote gives the value rounded to cents, with its sign. */
  lemma ToFixed2RoundTrip(x: real)
    ensures x >= 0.0 ==> ParseDecimal(ToFixed2(x)) == Some(RoundCents(x) as real / 100.0)
    ensures x < 0.0 ==> ParseDecimal(ToFixed2(x)) == Some(-(RoundCents(-x) as real / 100.0))
  {
    if x < 0.0 {
      var f := FormatCents(RoundCents(-x));
      FormatCentsParses(RoundCents(-x));
      FormatCentsSplits(RoundCents(-x));
      ParseDecimalNegates(f);
    } else {
      FormatCentsParses(RoundCents(x));
      FormatCentsSplits(RoundCents(x));
    }
  }

  lemma FormatCentsParses(n: nat)
    ensures ParseUnsigned(FormatCents(n)) == Some(n as real / 100.0)
  {
    var whole := NatToDigits(n / 100);
    var frac := [DigitChar(n % 100 / 10), DigitChar(n % 10)];
    FormatCentsSplits(n);
    ReadTwoParts(FormatCents(n), whole, frac);
    DigitsRoundTrip(n / 100);
    FracDigits(n);
    CentsArithmetic(n);
  }

  lemma FormatCentsSplits(n: nat)
    ensures AllAmountChars(FormatCents(n))
    ensures Split(FormatCents(n), '.') == [NatToDigits(n / 100), [DigitChar(n % 100 / 10), DigitChar(n % 10)]]
    ensures AllDigits([DigitChar(n % 100 / 10), DigitChar(n % 10)])
  {
    var whole := NatToDigits(n / 100);
    var frac := [DigitChar(n % 100 / 10), DigitChar(n % 10)];
    DigitCharValue(n % 100 / 10);
    DigitCharValue(n % 10);
    FormatCentsChars(whole, frac);
    assert '.' !in whole by {
      forall k | 0 <= k < |whole| ensures whole[k] != '.' { assert IsDigit(whole[k]); }
    }
    SplitAtSeparator(whole, frac, '.');
    SplitNoSeparator(whole, '.');
    SplitNoSeparator(frac, '.');
  }

  /** Digits, a point and digits: only amount characters. */
  lemma FormatCentsChars(whole: string, frac: string)
    requires AllDigits(whole) && AllDigits(frac)
    ensures AllAmountChars(whole + "." + frac)
  {
    var s := whole + "." + frac;
    forall k | 0 <= k < |s| ensures IsAmountChar(s[k]) {
      if k < |whole| { assert s[k] == whole[k]; }
      else if k > |whole| { assert s[k] == frac[k - |whole| - 1]; }
    }
  }

  lemma DigitCharValue(d: nat)
    requires d < 10
    ensures IsDigit(DigitChar(d)) && DigitValue(DigitChar(d)) == d
  {
  }

  lemma FracDigits(n: nat)
    ensures DigitsValue([DigitChar(n % 100 / 10), DigitChar(n % 10)]) == n % 100
  {
    var a, b := n % 100 / 10, n % 10;
    DigitCharValue(a);
    DigitCharValue(b);
    var frac := [DigitChar(a), DigitChar(b)];
    assert frac[..1] == [DigitChar(a)];
    assert frac[..1][..0] == [];
    assert DigitsValue(frac[..1]) == a;
    assert DigitsValue(frac) == a * 10 + b;
  }

  /** How `ParseUnsigned` reads a clean string made of a whole part, one point and a fraction. */
  lemma ReadTwoParts(s: string, whole: string, frac: string)
    requires AllAmountChars(s)
    requires Split(s, '.') == [whole, frac]
    requires whole != "" || frac != ""
    requires AllDigits(whole)
    requires AllDigits(frac)
    ensures ParseUnsigned(s).Some?
    ensures ParseUnsigned(s).value == DigitsValue(whole) as real + DigitsValue(frac) as real / Pow10(|frac|) as real
  {
    var parts := Split(s, '.');
    assert parts[0] == whole;
    assert parts[1] == frac;
  }

  lemma CentsArithmetic(n: nat)
    ensures (n / 100) as real + (n % 100) as real / Pow10(2) as real == n as real / 100.0
  {
    assert Pow10(2) == 100;
    assert n == 100 * (n / 100) + n % 100;
    assert n as real == 100.0 * ((n / 100) as real) + (n % 100) as real;
  }

  /** The empty field, a lone point and a lone sign all read as NaN. */
  lemma ParseDecimalRejects()
    ensures ParseDecimal("") == None
    ensures ParseDecimal(".") == None
    ensures ParseDecimal("-") == None
  {
    assert "." == "" + ['.'] + "";
    SplitAtSeparator("", "", '.');
    assert "-"[1..] == "";
  }

  /** What `toFixed(2)` writes for a non-negative value passes the amount field unchanged. */
  lemma ToFixed2Accepted(x: real)
    requires x >= 0.0
    ensures Sanitize(ToFixed2(x)) == ToFixed2(x)
    ensures AmountAccepted(ToFixed2(x))
  {
    FormatCentsSplits(RoundCents(x));
  }

  /** Rounding to cents moves a value by at most half a cent. */
  lemma RoundCentsClose(x: real)
    requires x >= 0.0
    ensures -0.005 <= RoundCents(x) as real / 100.0 - x <= 0.005
  {
  }

  /** A comma between two clean parts is dropped and the parts are joined. */
  lemma SanitizeJoinsAtComma(a: string, b: string)
    requires AllAmountChars(a) && AllAmountChars(b)
    ensures Sanitize(a + "," + b) == a + b
  {
    assert a + "," + b == a + ("," + b);
    SanitizeAppend(a, "," + b);
    SanitizeAppend(",", b);
    assert Sanitize(",") == [] by { assert !IsAmountChar(','); }
  }

  /** The sanitiser drops commas too: the Brazilian "12,50" becomes "1250". */
  lemma SanitizeDropsComma()
    ensures Sanitize("12,50") == "1250"
  {
    assert AllAmountChars("12") && AllAmountChars("50");
    SanitizeJoinsAtComma("12", "50");
    assert "12" + "," + "50" == "12,50";
  }
}
