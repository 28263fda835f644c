/**
 * Decimal text: number-to-string, two-digit zero padding, the leading-digit
 * integer parse used on CSV fields, and the mm:ss clock display.
 */
module Text {

  predicate IsDigit(c: char)
  {
    '0' <= c <= '9'
  }

  predicate AllDigits(s: string)
  {
    forall i :: 0 <= i < |s| ==> IsDigit(s[i])
  }

  function DigitChar(d: nat): (c: char)
    requires d < 10
    ensures IsDigit(c)
  {
    ('0' as int + d) as char
  }

  function DigitValue(c: char): (d: nat)
    requires IsDigit(c)
    ensures d < 10 && DigitChar(d) == c
  {
    c as int - '0' as int
  }

  /** The value of a string of decimal digits (0 for the empty string). */
  function Value(s: string): nat
    requires AllDigits(s)
  {
    if |s| == 0 then 0 else Value(s[..|s| - 1]) * 10 + DigitValue(s[|s| - 1])
  }

  /** Number.prototype.toString for a non-negative integer. */
  function Dec(n: nat): (s: string)
    ensures |s| >= 1
  {
    if n < 10 then [DigitChar(n)] else Dec(n / 10) + [DigitChar(n % 10)]
  }

  /** Dec writes n in decimal digits, one digit exactly below 10. */
  lemma {:induction false} DecValue(n: nat)
    ensures AllDigits(Dec(n)) && Value(Dec(n)) == n
    ensures n < 10 <==> |Dec(n)| == 1
  {
    if n >= 10 {
      DecValue(n / 10);
      var s := Dec(n);
      assert s[..|s| - 1] == Dec(n / 10);
    }
  }

  lemma {:induction false} LeadingZero(s: string)
    requires AllDigits(s)
    ensures AllDigits("0" + s) && Value("0" + s) == Value(s)
  {
    if |s| > 0 {
      var t := "0" + s;
      assert t[..|t| - 1] == "0" + s[..|s| - 1];
      LeadingZero(s[..|s| - 1]);
    }
  }

  /** A number written with at least two digits, as the tables show it. */
  function Pad2(n: nat): (s: string)
    ensures |s| >= 2
  {
    var d := Dec(n);
    DecValue(n);
    if |d| == 1 then "0" + d else d
  }

  /** Padding keeps the value: Pad2(n) is a string of at least two digits reading back as n. */
  lemma Pad2Value(n: nat)
    ensures AllDigits(Pad2(n)) && Value(Pad2(n)) == n
    ensures n < 100 ==> |Pad2(n)| == 2
  {
    var d := Dec(n);
    DecValue(n);
    if |d| == 1 {
      LeadingZero(d);
    } else if n < 100 {
      DecValue(n / 10);
      assert d == Dec(n / 10) + [DigitChar(n % 10)];
    }
  }

  lemma Pad2Injective(a: nat, b: nat)
    ensures Pad2(a) == Pad2(b) <==> a == b
  {
    Pad2Value(a);
    Pad2Value(b);
  }

  /** The leading run of decimal digits of s. */
  function LeadingDigits(s: string): (d: string)
    ensures AllDigits(d) && |d| <= |s| && d == s[..|d|]
    ensures |d| < |s| ==> !IsDigit(s[|d|])
  {
    if |s| == 0 || !IsDigit(s[0]) then []
    else
      var rest := LeadingDigits(s[1..]);
      [s[0]] + rest
  }

  /**
   * parseInt on a field: the value of the leading digits; a field without
   * leading digits (JavaScript NaN) reads as 0.
   */
  function ParseInt(s: string): (v: nat)
    ensures AllDigits(s) ==> v == Value(s)
  {
    var d := LeadingDigits(s);
    assert AllDigits(s) ==> d == s;
    Value(d)
  }

  /** The elapsed-time display: minutes and seconds, each at least two digits. */
  function FormatTime(ms: nat): (r: string)
    ensures |r| >= 5
  {
    var total := ms / 1000;
    Pad2(total / 60) + ":" + Pad2(total % 60)
  }

  /**
   * The display reads back: minutes of at least two digits, a colon, and two
   * digits of seconds below 60, together the whole seconds of ms.
   */
  lemma FormatTimeReadsBack(ms: nat)
    ensures exists m: string, s: string ::
      (FormatTime(ms) == m + ":" + s &&
       AllDigits(m) && AllDigits(s) && |m| >= 2 && |s| == 2 &&
       Value(m) * 60 + Value(s) == ms / 1000 && Value(s) < 60)
  {
    var total := ms / 1000;
    Pad2Value(total / 60);
    Pad2Value(total % 60);
    assert FormatTime(ms) == Pad2(total / 60) + ":" + Pad2(total % 60);
  }

  lemma FormatTimeZero()
    ensures FormatTime(0) == "00:00"
  {
    assert Dec(0) == "0";
  }
}
