// Decimal amounts: a strict parser and a canonical printer that undo each other.
module Amounts {
  import opened Prelude

  const MAX_TOKEN_DECIMALS: int := 38

  datatype AmountResult<+T> = Ok(value: T) | AmountError
  {
    predicate IsFailure() { AmountError? }
    function PropagateFailure<U>(): AmountResult<U>
      requires IsFailure()
    {
      AmountError
    }
    function Extract(): T
      requires Ok?
    {
      value
    }
  }

  // ---- digits ------------------------------------------------------------

  predicate IsDigit(c: char) { '0' <= c <= '9' }

  predicate AllDigits(s: string) { forall i :: 0 <= i < |s| ==> IsDigit(s[i]) }

  function DigitValue(c: char): (d: nat)
    requires IsDigit(c)
    ensures d <= 9
  {
    c as int - '0' as int
  }

  function Digit(d: nat): (c: char)
    requires d <= 9
    ensures IsDigit(c) && DigitValue(c) == d
  {
    (d + '0' as int) as char
  }

  function Zeros(n: nat): (z: string)
    ensures |z| == n && AllDigits(z) && forall i :: 0 <= i < n ==> z[i] == '0'
  {
    seq(n, _ => '0')
  }

  function Pow10(n: nat): (p: nat)
    ensures p >= 1
  {
    if n == 0 then 1 else 10 * Pow10(n - 1)
  }

  /** `BigInt` of a digit string. */
  function Value(s: string): nat
    requires AllDigits(s)
  {
    if s == "" then 0 else 10 * Value(s[..|s| - 1]) + DigitValue(s[|s| - 1])
  }

  /** `BigInt.toString`. */
  function Decimal(n: nat): (s: string)
    ensures |s| >= 1 && AllDigits(s)
  {
    if n < 10 then [Digit(n)] else Decimal(n / 10) + [Digit(n % 10)]
  }

  /** `padStart` and `padEnd` with zeros. */
  function PadStart(s: string, n: nat): string {
    if |s| >= n then s else Zeros(n - |s|) + s
  }

  function PadEnd(s: string, n: nat): string {
    if |s| >= n then s else s + Zeros(n - |s|)
  }

  /** `replace(/0+$/, "")`. */
  function StripZeros(s: string): (t: string)
    ensures |t| <= |s| && s == t + Zeros(|s| - |t|)
    ensures t == "" || t[|t| - 1] != '0'
  {
    if s == "" || s[|s| - 1] != '0' then s
    else
      var t := StripZeros(s[..|s| - 1]);
      assert s == (t + Zeros(|s| - 1 - |t|)) + ['0'];
      assert Zeros(|s| - |t|) == Zeros(|s| - 1 - |t|) + ['0'];
      t
  }

  // ---- the functions -----------------------------------------------------

  /** Position of the first dot, or the length when there is none. */
  function DotAt(s: string): (i: nat)
    ensures i <= |s| && (forall j :: 0 <= j < i ==> s[j] != '.') && (i < |s| ==> s[i] == '.')
  {
    if s == "" then 0 else if s[0] == '.' then 0 else 1 + DotAt(s[1..])
  }

  function Whole(s: string): string { s[..DotAt(s)] }

  function Fraction(s: string): string { if DotAt(s) < |s| then s[DotAt(s) + 1..] else "" }

  /** Digits with at most one dot; digits must follow the dot and something must be there. */
  predicate MatchesPattern(s: string) {
    && AllDigits(Whole(s)) && AllDigits(Fraction(s))
    && if DotAt(s) < |s| then Fraction(s) != "" else Whole(s) != ""
  }

  predicate GoodDecimals(decimals: int) { 0 <= decimals <= MAX_TOKEN_DECIMALS }

  function ParseAmount(s: string, decimals: int): AmountResult<nat> {
    if !GoodDecimals(decimals) || !MatchesPattern(s) || |Fraction(s)| > decimals then AmountError
    else
      var integerPart := if Whole(s) == "" then "0" else Whole(s);
      Ok(Value(integerPart + PadEnd(Fraction(s), decimals)))
  }

  function FormatAmount(value: int, decimals: int): AmountResult<string> {
    if !GoodDecimals(decimals) || value < 0 then AmountError
    else
      var digits := PadStart(Decimal(value), decimals + 1);
      var whole := digits[..|digits| - decimals];
      var fraction := StripZeros(digits[|digits| - decimals..]);
      Ok(if |fraction| > 0 then whole + "." + fraction else whole)
  }

  function NormaliseAmount(s: string, decimals: int): AmountResult<string> {
    var value :- ParseAmount(s, decimals);
    FormatAmount(value, decimals)
  }

  // ---- arithmetic of digit strings ---------------------------------------

  lemma {:induction false} ValueConcat(a: string, b: string)
    requires AllDigits(a) && AllDigits(b)
    ensures AllDigits(a + b) && Value(a + b) == Value(a) * Pow10(|b|) + Value(b)
  {
    if b == "" {
      assert a + b == a;
    } else {
      var n := |b| - 1;
      assert (a + b)[..|a + b| - 1] == a + b[..n];
      ValueConcat(a, b[..n]);
      Scaled(Value(a), Pow10(n));
    }
  }

  lemma Scaled(x: nat, p: nat)
    ensures 10 * (x * p) == x * (10 * p)
  {
  }

  lemma {:induction false} ValueZeros(n: nat)
    ensures Value(Zeros(n)) == 0
  {
    if n > 0 {
      assert Zeros(n)[..n - 1] == Zeros(n - 1);
      ValueZeros(n - 1);
    }
  }

  lemma {:induction false} ValueDecimal(n: nat)
    ensures Value(Decimal(n)) == n
  {
    if n < 10 {
      assert [Digit(n)][..0] == "";
    } else {
      ValueDecimal(n / 10);
      assert Decimal(n)[..|Decimal(n)| - 1] == Decimal(n / 10);
    }
  }

  lemma PadKeepsValue(s: string, n: nat)
    requires AllDigits(s)
    ensures AllDigits(PadStart(s, n)) && Value(PadStart(s, n)) == Value(s)
  {
    if |s| < n {
      ValueZeros(n - |s|);
      ValueConcat(Zeros(n - |s|), s);
    }
  }

  /** Only zero prints with a leading zero. */
  lemma {:induction false} DecimalLeads(n: nat)
    ensures n > 0 ==> Decimal(n)[0] != '0'
    ensures n == 0 ==> Decimal(n) == "0"
  {
    if n >= 10 { DecimalLeads(n / 10); }
  }

  /** Printing a digit string's value and padding to its length gives the string back. */
  lemma {:induction false} PadDecimalValue(t: string)
    requires AllDigits(t) && t != ""
    ensures PadStart(Decimal(Value(t)), |t|) == t
  {
    var n := |t| - 1;
    var front, last := t[..n], DigitValue(t[n]);
    assert t == front + [Digit(last)];
    if front == "" {
      assert Value(front) == 0;
    } else {
      PadDecimalValue(front);
      var m := Value(front);
      assert Value(t) / 10 == m && Value(t) % 10 == last;
      if m == 0 {
        assert Zeros(n) == PadStart(Decimal(0), n);
        assert PadStart(Decimal(Value(t)), n + 1) == Zeros(n) + [Digit(last)];
      } else {
        assert Decimal(Value(t)) == Decimal(m) + [Digit(last)];
      }
    }
  }

  // ---- what an accepted string means -------------------------------------

  /** The number an accepted string denotes, scaled by 10^decimals. */
  function Denotes(s: string, decimals: nat): nat
    requires MatchesPattern(s) && |Fraction(s)| <= decimals
  {
    Value(Whole(s)) * Pow10(decimals) + Value(Fraction(s)) * Pow10(decimals - |Fraction(s)|)
  }

  /** Parsing is exact: it accepts a plain decimal that needs no rounding and returns what it denotes. */
  lemma ParseMeaning(s: string, decimals: int)
    ensures ParseAmount(s, decimals).Ok? <==> GoodDecimals(decimals) && MatchesPattern(s) && |Fraction(s)| <= decimals
    ensures ParseAmount(s, decimals).Ok? ==> ParseAmount(s, decimals).value == Denotes(s, decimals)
  {
    if ParseAmount(s, decimals).Ok? {
      var f := Fraction(s);
      var padded := PadEnd(f, decimals);
      assert padded == f + Zeros(decimals - |f|);
      ValueZeros(decimals - |f|);
      ValueConcat(f, Zeros(decimals - |f|));
      var integerPart := if Whole(s) == "" then "0" else Whole(s);
      assert Value("0") == 0 by { assert "0"[..0] == ""; }
      ValueConcat(integerPart, padded);
    }
  }

  /** The digits denote zero to nine, and each place is worth ten of the next. */
  lemma DigitMeaning(s: string, c: char)
    ensures DigitValue('0') == 0 && DigitValue('1') == 1 && DigitValue('2') == 2 && DigitValue('3') == 3 && DigitValue('4') == 4
    ensures DigitValue('5') == 5 && DigitValue('6') == 6 && DigitValue('7') == 7 && DigitValue('8') == 8 && DigitValue('9') == 9
    ensures AllDigits("") && Value("") == 0
    ensures AllDigits(s) && IsDigit(c) ==> AllDigits(s + [c]) && Value(s + [c]) == 10 * Value(s) + DigitValue(c)
  {
    assert (s + [c])[..|s|] == s;
  }

  /** A plain decimal, character by character: digits and at most one dot, ending in a digit. */
  predicate PlainDecimal(s: string) {
    && (forall i :: 0 <= i < |s| ==> s[i] == '.' || '0' <= s[i] <= '9')
    && (forall i, j :: 0 <= i < j < |s| ==> !(s[i] == '.' && s[j] == '.'))
    && s != "" && s[|s| - 1] != '.'
  }

  lemma PatternMeaning(s: string)
    ensures MatchesPattern(s) <==> PlainDecimal(s)
    ensures forall i :: 0 <= i < |s| && s[i] == '.' && MatchesPattern(s) ==> |Fraction(s)| == |s| - i - 1
    ensures (forall i :: 0 <= i < |s| ==> s[i] != '.') ==> Fraction(s) == ""
  {
    hide DotAt;
    var d := DotAt(s);
    assert forall i :: 0 <= i < d ==> Whole(s)[i] == s[i];
    if d < |s| {
      assert forall i :: d < i < |s| ==> s[i] == Fraction(s)[i - d - 1];
    }
  }

  /** Parsing accepts exactly a plain decimal with at most `decimals` digits after its dot, `decimals` being 0 to 38. */
  lemma ParseAccepts(s: string, decimals: int)
    ensures ParseAmount(s, decimals).Ok? <==>
              && 0 <= decimals <= 38 && PlainDecimal(s)
              && forall i :: 0 <= i < |s| && s[i] == '.' ==> |s| - i - 1 <= decimals
  {
    hide MatchesPattern, PlainDecimal, Fraction;
    PatternMeaning(s);
    ParseMeaning(s, decimals);
    if !(forall i :: 0 <= i < |s| ==> s[i] != '.') { var i :| 0 <= i < |s| && s[i] == '.'; }
  }

  lemma ExampleParts()
    ensures Whole("12.5") == "12" && Fraction("12.5") == "5"
  {
    DotAfter("12", "5");
    assert "12" + "." + "5" == "12.5";
  }

  lemma ExampleValues()
    ensures AllDigits("12") && Value("12") == 12 && AllDigits("5") && Value("5") == 5
    ensures Pow10(6) == 1000000 && Pow10(7) == 10000000
  {
    hide Value;
    DigitMeaning("", '1');
    DigitMeaning("1", '2');
    DigitMeaning("", '5');
    assert "" + ['1'] == "1" && "1" + ['2'] == "12" && "" + ['5'] == "5";
  }

  /** The documented example: 12.5 at seven decimals is 125000000 units. */
  lemma ParseExample()
    ensures ParseAmount("12.5", 7) == Ok(125000000) && FormatAmount(125000000, 7) == Ok("12.5")
  {
    hide DotAt, Whole, Fraction, Value, Pow10, FormatAmount, ParseAmount, Decimal;
    ExampleParts();
    ExampleValues();
    ParseMeaning("12.5", 7);
    FormatParse("12.5", 7);
  }

  /** Printing accepts exactly the amounts that are not negative, at 0 to 38 decimals. */
  lemma FormatAccepts(value: int, decimals: int)
    ensures FormatAmount(value, decimals).Ok? <==> 0 <= decimals <= 38 && value >= 0
  {
  }

  // ---- the canonical form ------------------------------------------------

  /** No superfluous zero anywhere, and a dot only before a fraction. */
  predicate Canonical(s: string, decimals: nat) {
    && MatchesPattern(s) && |Fraction(s)| <= decimals
    && Whole(s) != "" && (Whole(s)[0] == '0' ==> Whole(s) == "0")
    && (Fraction(s) != "" ==> Fraction(s)[|Fraction(s)| - 1] != '0')
  }

  lemma {:induction false} DotAfter(w: string, f: string)
    requires AllDigits(w)
    ensures DotAt(w) == |w| && Whole(w) == w && Fraction(w) == ""
    ensures DotAt(w + "." + f) == |w| && Whole(w + "." + f) == w && Fraction(w + "." + f) == f
  {
    if w == "" {
      assert w + "." + f == "." + f;
    } else {
      DotAfter(w[1..], f);
      assert (w + "." + f)[1..] == w[1..] + "." + f;
    }
    assert (w + "." + f)[..|w|] == w && (w + "." + f)[|w| + 1..] == f;
  }

  /** A canonical text from an integer part and a fraction of fixed width. */
  function Joined(whole: string, tail: string): string {
    if StripZeros(tail) != "" then whole + "." + StripZeros(tail) else whole
  }

  lemma JoinedParts(whole: string, tail: string)
    requires AllDigits(whole) && AllDigits(tail) && whole != ""
    ensures Whole(Joined(whole, tail)) == whole && Fraction(Joined(whole, tail)) == StripZeros(tail)
    ensures MatchesPattern(Joined(whole, tail)) && |StripZeros(tail)| <= |tail|
    ensures PadEnd(StripZeros(tail), |tail|) == tail
  {
    hide StripZeros, DotAt, Value, Decimal, Pow10;
    var fraction := StripZeros(tail);
    assert forall i :: 0 <= i < |fraction| ==> fraction[i] == tail[i];
    DotAfter(whole, fraction);
  }

  /** The printed string has the padded digits split at the scale. */
  lemma FormatParts(value: nat, decimals: nat)
    requires GoodDecimals(decimals)
    ensures var digits := PadStart(Decimal(value), decimals + 1);
            && |digits| >= decimals + 1 && AllDigits(digits) && Value(digits) == value
            && FormatAmount(value, decimals)
               == Ok(Joined(digits[..|digits| - decimals], digits[|digits| - decimals..]))
  {
    hide StripZeros, DotAt, Value, Decimal, Pow10, MatchesPattern, Whole, Fraction;
    PadKeepsValue(Decimal(value), decimals + 1);
    ValueDecimal(value);
  }

  /** Printing yields the canonical form. */
  lemma FormatIsCanonical(value: nat, decimals: nat)
    requires GoodDecimals(decimals)
    ensures FormatAmount(value, decimals).Ok? && Canonical(FormatAmount(value, decimals).value, decimals)
  {
    hide StripZeros, DotAt, Value, Decimal, Pow10, MatchesPattern, Whole, Fraction, FormatAmount, Joined, AllDigits;
    FormatParts(value, decimals);
    var digits := PadStart(Decimal(value), decimals + 1);
    DigitSlices(digits, |digits| - decimals);
    JoinedParts(digits[..|digits| - decimals], digits[|digits| - decimals..]);
    DecimalLeads(value);
  }

  lemma DigitSlices(s: string, k: nat)
    requires AllDigits(s) && k <= |s|
    ensures AllDigits(s[..k]) && AllDigits(s[k..])
  {
  }

  /** Every amount survives printing and parsing. */
  lemma ParseFormat(value: nat, decimals: nat)
    requires GoodDecimals(decimals)
    ensures FormatAmount(value, decimals).Ok?
    ensures ParseAmount(FormatAmount(value, decimals).value, decimals) == Ok(value)
  {
    hide StripZeros, DotAt, Value, Decimal, Pow10, MatchesPattern, Whole, Fraction, FormatAmount, Joined, AllDigits, PadStart, PadEnd;
    FormatParts(value, decimals);
    var digits := PadStart(Decimal(value), decimals + 1);
    var whole, tail := digits[..|digits| - decimals], digits[|digits| - decimals..];
    DigitSlices(digits, |digits| - decimals);
    JoinedParts(whole, tail);
    assert whole + tail == digits;
  }

  /** A canonical string survives parsing and printing: it is the one string printed for its amount. */
  lemma FormatParse(s: string, decimals: nat)
    requires GoodDecimals(decimals) && Canonical(s, decimals)
    ensures ParseAmount(s, decimals).Ok?
    ensures FormatAmount(ParseAmount(s, decimals).value, decimals) == Ok(s)
  {
    hide StripZeros, DotAt, Value, Decimal, Pow10, FormatAmount;
    var w, f := Whole(s), Fraction(s);
    var t := w + PadEnd(f, decimals);
    var v := Value(t);
    assert ParseAmount(s, decimals) == Ok(v);
    PaddedIsPrinted(w, PadEnd(f, decimals));
    FormatParts(v, decimals);
    assert t[..|t| - decimals] == w && t[|t| - decimals..] == PadEnd(f, decimals);
    StripPadded(f, decimals - |f|);
    assert PadEnd(f, decimals) == f + Zeros(decimals - |f|);
    Rejoin(s);
  }

  lemma Rejoin(s: string)
    requires MatchesPattern(s)
    ensures s == if Fraction(s) == "" then Whole(s) else Whole(s) + "." + Fraction(s)
  {
    hide DotAt, AllDigits;
  }

  /** Digits without a superfluous zero in front are the ones printed for their value. */
  lemma PaddedIsPrinted(w: string, tail: string)
    requires AllDigits(w) && AllDigits(tail) && w != "" && (w[0] == '0' ==> w == "0")
    ensures AllDigits(w + tail) && PadStart(Decimal(Value(w + tail)), |tail| + 1) == w + tail
  {
    hide Value, Decimal, Pow10;
    var t := w + tail;
    PadDecimalValue(t);
    DecimalLeads(Value(t));
    assert |w| > 1 ==> t[0] != '0';
  }

  lemma {:induction false} StripPadded(f: string, n: nat)
    requires f != "" ==> f[|f| - 1] != '0'
    ensures StripZeros(f + Zeros(n)) == f
  {
    if n == 0 {
      assert f + Zeros(0) == f;
    } else {
      assert (f + Zeros(n))[..|f| + n - 1] == f + Zeros(n - 1);
      StripPadded(f, n - 1);
    }
  }

  /** Normalising is idempotent and yields the canonical string of the same amount. */
  lemma NormaliseIdempotent(s: string, decimals: int)
    ensures var r := NormaliseAmount(s, decimals);
            r.Ok? ==>
              && decimals >= 0 && Canonical(r.value, decimals)
              && NormaliseAmount(r.value, decimals) == r
              && ParseAmount(r.value, decimals) == ParseAmount(s, decimals)
  {
    if NormaliseAmount(s, decimals).Ok? {
      var value := ParseAmount(s, decimals).value;
      FormatIsCanonical(value, decimals);
      ParseFormat(value, decimals);
    }
  }

  /** Every string the parser accepts normalises. */
  lemma NormaliseAccepts(s: string, decimals: int)
    ensures NormaliseAmount(s, decimals).Ok? <==> ParseAmount(s, decimals).Ok?
  {
  }

  /** Two accepted strings normalise to the same text exactly when they denote the same number. */
  lemma NormaliseDecidesEquality(x: string, y: string, decimals: int)
    requires ParseAmount(x, decimals).Ok? && ParseAmount(y, decimals).Ok?
    ensures MatchesPattern(x) && |Fraction(x)| <= decimals && MatchesPattern(y) && |Fraction(y)| <= decimals
    ensures NormaliseAmount(x, decimals) == NormaliseAmount(y, decimals)
            <==> Denotes(x, decimals) == Denotes(y, decimals)
  {
    ParseMeaning(x, decimals);
    ParseMeaning(y, decimals);
    ParseFormat(Denotes(x, decimals), decimals);
    ParseFormat(Denotes(y, decimals), decimals);
  }
}
