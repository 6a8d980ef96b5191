/** The `MM:SS` rendering of the session clock: whole minutes and the
    remaining seconds, each written in decimal and left-padded with '0' to
    at least two characters. Minutes are not bounded. */
module Clock {

  predicate IsDigit(c: char) {
    '0' <= c <= '9'
  }

  predicate IsDigits(s: string) {
    forall k | 0 <= k < |s| :: IsDigit(s[k])
  }

  function DigitChar(d: nat): (c: char)
    requires d < 10
    ensures IsDigit(c)
  {
    ('0' as int + d) as char
  }

  function DigitValue(c: char): nat
    requires IsDigit(c)
  {
    c as int - '0' as int
  }

  /** The number a string of decimal digits denotes (leading zeros allowed). */
  function ValueOf(s: string): nat
    requires IsDigits(s)
  {
    if s == [] then 0 else ValueOf(s[..|s| - 1]) * 10 + DigitValue(s[|s| - 1])
  }

  /** `n.toString()` for a non-negative integer: one digit below 10, more
      from 10 on, at most two below 100. */
  function Decimal(n: nat): (r: string)
    ensures |r| >= 1 && IsDigits(r)
    ensures n < 10 <==> |r| == 1
    ensures n < 100 ==> |r| <= 2
    decreases n
  {
    if n < 10 then [DigitChar(n)] else Decimal(n / 10) + [DigitChar(n % 10)]
  }

  /** `s.padStart(2, '0')`: `s` preceded by as many '0' as it takes to
      reach two characters, or `s` itself when it is long enough. */
  function PadTwo(s: string): (r: string)
    ensures |r| == if |s| >= 2 then |s| else 2
    ensures forall k | 0 <= k < |s| :: r[|r| - |s| + k] == s[k]
    ensures forall k | 0 <= k < |r| - |s| :: r[k] == '0'
  {
    if |s| >= 2 then s else Zeros(2 - |s|) + s
  }

  function Zeros(k: nat): (z: string)
    ensures |z| == k && forall i | 0 <= i < k :: z[i] == '0'
  {
    if k == 0 then [] else ['0'] + Zeros(k - 1)
  }

  /** A clock string: a minutes field of at least two digits, ':', and a
      seconds field of exactly two digits. */
  predicate IsClock(r: string) {
    |r| >= 5 && r[|r| - 3] == ':' && IsDigits(r[..|r| - 3]) && IsDigits(r[|r| - 2..])
  }

  /** The number a clock string's minutes field denotes. */
  function MinutesOf(r: string): nat
    requires IsClock(r)
  {
    ValueOf(r[..|r| - 3])
  }

  /** The number a clock string's seconds field denotes. */
  function SecondsOf(r: string): nat
    requires IsClock(r)
  {
    ValueOf(r[|r| - 2..])
  }

  /** `formatTime(seconds)`: reading the clock back gives `seconds`, with
      the seconds field below 60. */
  function FormatTime(seconds: nat): (r: string)
    ensures IsClock(r)
    ensures SecondsOf(r) < 60
    ensures MinutesOf(r) * 60 + SecondsOf(r) == seconds
    ensures seconds >= 600 ==> r[0] != '0'
  {
    var mins, secs := seconds / 60, seconds % 60;
    var dm, ds := Decimal(mins), Decimal(secs);
    var m, s := PadTwo(dm), PadTwo(ds);
    DecimalDigits(mins);
    DecimalDigits(secs);
    PadTwoDigits(dm);
    PadTwoDigits(ds);
    var r := m + ":" + s;
    assert r[..|r| - 3] == m && r[|r| - 2..] == s;
    assert seconds >= 600 ==> mins >= 10 && m == dm && r[0] == dm[0];
    r
  }

  /** `Decimal` writes digits that denote `n` and never starts with a
      superfluous zero. */
  lemma {:induction false} DecimalDigits(n: nat)
    ensures ValueOf(Decimal(n)) == n
    ensures n > 0 ==> Decimal(n)[0] != '0'
    decreases n
  {
    if n >= 10 {
      DecimalDigits(n / 10);
      var d := Decimal(n);
      assert d[..|d| - 1] == Decimal(n / 10);
    }
  }

  /** Leading zeros do not change the value of a digit string. */
  lemma {:induction false} LeadingZero(s: string)
    requires IsDigits(s)
    ensures IsDigits(['0'] + s) && ValueOf(['0'] + s) == ValueOf(s)
    decreases |s|
  {
    var t := ['0'] + s;
    if s != [] {
      assert t[..|t| - 1] == ['0'] + s[..|s| - 1];
      LeadingZero(s[..|s| - 1]);
    }
  }

  lemma {:induction false} ZerosDigits(k: nat, s: string)
    requires IsDigits(s)
    ensures IsDigits(Zeros(k) + s) && ValueOf(Zeros(k) + s) == ValueOf(s)
  {
    if k > 0 {
      var t := Zeros(k - 1) + s;
      ZerosDigits(k - 1, s);
      assert Zeros(k) + s == ['0'] + t;
      LeadingZero(t);
    } else {
      assert Zeros(k) + s == s;
    }
  }

  /** Padding keeps the digits and their value and gives at least two of them. */
  lemma PadTwoDigits(s: string)
    requires IsDigits(s) && |s| >= 1
    ensures IsDigits(PadTwo(s)) && ValueOf(PadTwo(s)) == ValueOf(s)
  {
    if |s| < 2 {
      ZerosDigits(2 - |s|, s);
    }
  }

  /** Under 100 minutes the clock is exactly five characters, "MM:SS". */
  lemma FormatTimeShort(seconds: nat)
    requires seconds < 6000
    ensures |FormatTime(seconds)| == 5
  {
  }

  /** Different second counts are never shown as the same clock. */
  lemma FormatTimeInjective(a: nat, b: nat)
    ensures FormatTime(a) == FormatTime(b) ==> a == b
  {
    if FormatTime(a) == FormatTime(b) {
      var r := FormatTime(a);
      assert a == MinutesOf(r) * 60 + SecondsOf(r);
    }
  }
}
