/** The text the date picker writes into the form: the chosen day in the
    pattern `yyyy-MM-dd`, where the picker reports the month zero-based and
    each field is zero-padded to the pattern's width. Digits are ASCII. */
module PickerDate {
  import opened Kotlin

  predicate IsDigit(c: char) {
    '0' <= c <= '9'
  }

  predicate AllDigits(s: string) {
    forall i :: 0 <= i < |s| ==> IsDigit(s[i])
  }

  function DigitChar(d: nat): (c: char)
    requires d < 10
    ensures IsDigit(c)
  {
    (d + '0' as int) as char
  }

  function DigitValue(c: char): (d: nat)
    requires IsDigit(c)
    ensures d < 10
  {
    c as int - '0' as int
  }

  /** The decimal digits of `n`, most significant first, with no leading zero. */
  function Digits(n: nat): (s: string)
    ensures |s| >= 1 && AllDigits(s)
    decreases n
  {
    if n < 10 then [DigitChar(n)] else Digits(n / 10) + [DigitChar(n % 10)]
  }

  /** The number a string of digits denotes. */
  function Value(s: string): nat
    requires AllDigits(s)
  {
    if |s| == 0 then 0 else Value(s[..|s| - 1]) * 10 + DigitValue(s[|s| - 1])
  }

  function Zeros(k: nat): (s: string)
    ensures |s| == k && AllDigits(s)
    ensures forall i :: 0 <= i < k ==> s[i] == '0'
  {
    seq(k, _ => '0')
  }

  function Pow10(k: nat): nat {
    if k == 0 then 1 else 10 * Pow10(k - 1)
  }

  /** `n` in decimal, left-padded with zeros to at least `width` characters. */
  function Pad(n: nat, width: nat): (s: string)
    ensures AllDigits(s)
    ensures |s| == if |Digits(n)| < width then width else |Digits(n)|
  {
    if |Digits(n)| < width then Zeros(width - |Digits(n)|) + Digits(n) else Digits(n)
  }

  /** A non-empty run of digits and its value, or nothing. */
  function ParseNat(s: string): (r: Option<nat>)
    ensures r.Some? <==> |s| > 0 && AllDigits(s)
  {
    if |s| > 0 && AllDigits(s) then Some(Value(s)) else None
  }

  lemma {:induction false} ValueOfDigits(n: nat)
    ensures Value(Digits(n)) == n
    decreases n
  {
    if n >= 10 {
      var s := Digits(n);
      assert s[..|s| - 1] == Digits(n / 10);
      ValueOfDigits(n / 10);
    }
  }

  lemma {:induction false} ValueOfZeros(k: nat)
    ensures Value(Zeros(k)) == 0
  {
    if k > 0 {
      assert Zeros(k)[..k - 1] == Zeros(k - 1);
      ValueOfZeros(k - 1);
    }
  }

  /** Leading zeros do not change a number's value. */
  lemma {:induction false} LeadingZeros(k: nat, s: string)
    requires AllDigits(s)
    ensures Value(Zeros(k) + s) == Value(s)
    decreases |s|
  {
    if |s| == 0 {
      assert Zeros(k) + s == Zeros(k);
      ValueOfZeros(k);
    } else {
      var t := Zeros(k) + s;
      assert t[..|t| - 1] == Zeros(k) + s[..|s| - 1];
      LeadingZeros(k, s[..|s| - 1]);
    }
  }

  /** A number below `10^k` has at most `k` digits. */
  lemma {:induction false} DigitsFit(n: nat, k: nat)
    requires 1 <= k && n < Pow10(k)
    ensures |Digits(n)| <= k
    decreases n
  {
    if n >= 10 {
      assert Pow10(1) == 10;
      DigitsFit(n / 10, k - 1);
    }
  }

  /** Padding is undone by reading the digits back. */
  lemma PadRoundTrip(n: nat, width: nat)
    ensures ParseNat(Pad(n, width)) == Some(n)
  {
    ValueOfDigits(n);
    if |Digits(n)| < width {
      LeadingZeros(width - |Digits(n)|, Digits(n));
    }
  }

  /** The picker's text for year `year`, zero-based month `month0` and day
      `day`. */
  function FormatDay(year: nat, month0: nat, day: nat): (s: string)
    ensures year < 10000 && month0 < 99 && day < 100 ==> |s| == 10 && s[4] == '-' && s[7] == '-'
  {
    assert year < 10000 ==> |Digits(year)| <= 4 by {
      if year < 10000 { assert Pow10(4) == 10000; DigitsFit(year, 4); }
    }
    assert month0 < 99 ==> |Digits(month0 + 1)| <= 2 by {
      if month0 < 99 { assert Pow10(2) == 100; DigitsFit(month0 + 1, 2); }
    }
    assert day < 100 ==> |Digits(day)| <= 2 by {
      if day < 100 { assert Pow10(2) == 100; DigitsFit(day, 2); }
    }
    Pad(year, 4) + "-" + Pad(month0 + 1, 2) + "-" + Pad(day, 2)
  }

  /** Reads a `yyyy-MM-dd` text back into year, zero-based month and day. */
  function ParseDay(s: string): (r: Option<(nat, nat, nat)>)
    ensures r.Some? ==> |s| == 10 && s[4] == '-' && s[7] == '-'
  {
    if |s| == 10 && s[4] == '-' && s[7] == '-' then
      match (ParseNat(s[..4]), ParseNat(s[5..7]), ParseNat(s[8..]))
      case (Some(y), Some(m), Some(d)) => if m >= 1 then Some((y, m - 1, d)) else None
      case _ => None
    else None
  }

  /** Every day the picker can offer is read back from its text unchanged. */
  lemma FormatDayRoundTrip(year: nat, month0: nat, day: nat)
    requires year < 10000 && month0 < 12 && 1 <= day <= 31
    ensures ParseDay(FormatDay(year, month0, day)) == Some((year, month0, day))
  {
    var s := FormatDay(year, month0, day);
    assert s[..4] == Pad(year, 4);
    assert s[5..7] == Pad(month0 + 1, 2);
    assert s[8..] == Pad(day, 2);
    PadRoundTrip(year, 4);
    PadRoundTrip(month0 + 1, 2);
    PadRoundTrip(day, 2);
  }
}
