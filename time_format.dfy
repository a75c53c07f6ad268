/**
 * `formatTime`: a number of seconds as zero-padded minutes and seconds,
 * "MM:SS", with "00:00" for NaN.
 */
module TimeFormat {
  import opened Wrappers
  import JsNumber

  predicate IsDigit(c: char) {
    '0' <= c <= '9'
  }

  predicate AllDigits(s: string) {
    forall i :: 0 <= i < |s| ==> IsDigit(s[i])
  }

  function DigitChar(d: nat): (c: char)
    requires d < 10
    ensures IsDigit(c) && c as int - '0' as int == d
  {
    ('0' as int + d) as char
  }

  function DigitValue(c: char): nat
    requires IsDigit(c)
  {
    c as int - '0' as int
  }

  /** The number a string of decimal digits denotes (leading zeros allowed). */
  function DecimalValue(s: string): nat
    requires AllDigits(s)
  {
    if s == [] then 0 else DecimalValue(s[..|s| - 1]) * 10 + DigitValue(s[|s| - 1])
  }

  /** `Number.prototype.toString()` on a non-negative integer below 10^21: its decimal
      digits, with no leading zero except for 0 itself. */
  function Digits(n: nat): (s: string)
    ensures AllDigits(s) && DecimalValue(s) == n
    ensures 1 <= |s|
    ensures |s| == 1 <==> n < 10
    ensures |s| <= 2 <==> n < 100
    ensures s[0] == '0' <==> n == 0
  {
    if n < 10 then [DigitChar(n)]
    else
      var s := Digits(n / 10) + [DigitChar(n % 10)];
      assert s[..|s| - 1] == Digits(n / 10);
      assert s[0] == Digits(n / 10)[0];
      s
  }

  /** `toString()` on any integer: a leading minus for negatives. */
  function IntToString(i: int): string {
    if i < 0 then "-" + Digits(-i) else Digits(i)
  }

  /** `padStart(2, '0')`. */
  function PadStart2(s: string): (r: string)
    ensures 2 <= |s| ==> r == s
    ensures |s| < 2 ==> |r| == 2 && r[2 - |s|..] == s
    ensures forall i :: 0 <= i < |r| - |s| ==> r[i] == '0'
  {
    if |s| >= 2 then s else if |s| == 1 then "0" + s else "00"
  }

  function FormatTime(t: Option<real>): string {
    match t
    case None => "00:00"
    case Some(v) =>
      var seconds := PadStart2(IntToString(JsNumber.Remainder(v, 60.0).Floor));
      var minutes := PadStart2(IntToString((v / 60.0).Floor));
      minutes + ":" + seconds
  }

  /** A padded field of a non-negative integer still denotes that integer, and is
      exactly two characters long when the integer has at most two digits. */
  lemma PaddedField(n: nat)
    ensures var p := PadStart2(Digits(n));
      && AllDigits(p) && DecimalValue(p) == n
      && 2 <= |p| && (|p| == 2 <==> n < 100)
      && (2 < |p| ==> p[0] != '0')
  {
    var d := Digits(n);
    var p := PadStart2(d);
    if n < 10 {
      assert p == ['0', d[0]];
      assert p[..1] == ['0'];
      assert DecimalValue(['0']) == 0;
    }
  }

  lemma FormatTimeNaN()
    ensures FormatTime(None) == "00:00"
  {
  }

  lemma FormatTimeExamples()
    ensures FormatTime(Some(65.0)) == "01:05"
    ensures FormatTime(Some(0.0)) == "00:00"
    ensures FormatTime(Some(130.0)) == "02:10"
  {
    JsNumber.RemainderBySixty(65.0);
    JsNumber.RemainderBySixty(0.0);
    JsNumber.RemainderBySixty(130.0);
    assert (65.0 / 60.0).Floor == 1;
    assert (130.0 / 60.0).Floor == 2;
    assert Digits(2) == "2";
    assert Digits(10) == "10";
    assert Digits(1) == "1";
    assert Digits(5) == "5";
    assert Digits(0) == "0";
  }

  /** For a non-negative time both fields are the padded digits of non-negative integers. */
  lemma FormatTimeNonNegative(t: real)
    requires 0.0 <= t
    ensures FormatTime(Some(t))
         == PadStart2(Digits((t / 60.0).Floor)) + ":" + PadStart2(Digits(JsNumber.Remainder(t, 60.0).Floor))
  {
    JsNumber.RemainderBySixty(t);
  }

  /** The shape of a formatted time: a minutes field, a colon and a two-digit
      seconds field, all digits, denoting `minutes` and `seconds`; the seconds
      lie in 00..59, and the text is five characters long exactly when the
      minutes have at most two digits; a longer minutes field has no leading zero. */
  predicate IsClockText(r: string, minutes: nat, seconds: nat) {
    && 5 <= |r| && r[|r| - 3] == ':'
    && AllDigits(r[..|r| - 3]) && AllDigits(r[|r| - 2..])
    && DecimalValue(r[..|r| - 3]) == minutes
    && DecimalValue(r[|r| - 2..]) == seconds
    && seconds < 60 && '0' <= r[|r| - 2] <= '5'
    && (|r| == 5 <==> minutes < 100)
    && (5 < |r| ==> r[0] != '0')
  }

  /** Joining a minutes field and a two-digit seconds field below 60 with a colon. */
  lemma JoinedFields(mf: string, sf: string, m: nat, s: nat)
    requires AllDigits(mf) && DecimalValue(mf) == m && 2 <= |mf| && (|mf| == 2 <==> m < 100)
    requires 2 < |mf| ==> mf[0] != '0'
    requires AllDigits(sf) && DecimalValue(sf) == s && |sf| == 2 && s < 60
    ensures IsClockText(mf + ":" + sf, m, s)
  {
    var r := mf + ":" + sf;
    assert r[..|r| - 3] == mf;
    assert r[|r| - 2..] == sf;
    assert sf[..1] == [sf[0]];
    assert DecimalValue(sf) == DigitValue(sf[0]) * 10 + DigitValue(sf[1]);
  }

  lemma MinutesBelowHundred(t: real)
    requires 0.0 <= t
    ensures (t / 60.0).Floor < 100 <==> t < 6000.0
  {
  }

  /** For a non-negative time the result is "<minutes>:<seconds>": the minutes
      field denotes floor(t / 60), the two-digit seconds field denotes
      floor(t mod 60) = floor(t) mod 60, which lies in 00..59, and the whole
      string is five characters long exactly when t is below 100 minutes
      (beyond that, the minutes are written without a leading zero). */
  lemma FormatTimeFields(t: real)
    requires 0.0 <= t
    ensures IsClockText(FormatTime(Some(t)), (t / 60.0).Floor, JsNumber.Remainder(t, 60.0).Floor)
    ensures JsNumber.Remainder(t, 60.0).Floor == t.Floor % 60
    ensures (t / 60.0).Floor < 100 <==> t < 6000.0
  {
    JsNumber.RemainderBySixty(t);
    var m: nat := (t / 60.0).Floor;
    var s: nat := JsNumber.Remainder(t, 60.0).Floor;
    PaddedField(m);
    PaddedField(s);
    FormatTimeNonNegative(t);
    JoinedFields(PadStart2(Digits(m)), PadStart2(Digits(s)), m, s);
    MinutesBelowHundred(t);
  }
}
