/** The sample-interval text of the emulator: `f"{h:02}:{m:02}:{s:02}"`, each integer
    written in decimal and zero-padded to width 2 (a negative number keeps its sign and
    is already two characters wide), and a parser for the `HH:MM:SS` form. */
module Interval {
  import opened Results

  predicate IsDigit(ch: char) {
    '0' <= ch <= '9'
  }

  predicate AllDigits(s: string) {
    forall i :: 0 <= i < |s| ==> IsDigit(s[i])
  }

  function DigitChar(d: nat): (ch: char)
    requires d < 10
    ensures IsDigit(ch)
  {
    (48 + d) as char
  }

  function DigitValue(ch: char): (d: nat)
    requires IsDigit(ch)
    ensures d < 10
    ensures DigitChar(d) == ch
  {
    ch as int - 48
  }

  /** Decimal digits of `n`, most significant first, without leading zeros. */
  function Digits(n: nat): (s: string)
    ensures 1 <= |s|
    ensures AllDigits(s)
    ensures n < 10 <==> |s| == 1
    ensures n < 100 ==> |s| <= 2
    ensures n >= 100 ==> |s| >= 3
    ensures |s| > 1 ==> s[0] != '0'
    decreases n
  {
    if n < 10 then [DigitChar(n)] else Digits(n / 10) + [DigitChar(n % 10)]
  }

  /** The number a string of decimal digits denotes. */
  function DigitsValue(s: string): (n: nat)
    requires AllDigits(s)
    decreases |s|
  {
    if |s| == 0 then 0 else 10 * DigitsValue(s[..|s| - 1]) + DigitValue(s[|s| - 1])
  }

  /** Reading back the digits of `n` gives `n`. */
  lemma {:induction false} DigitsRoundTrip(n: nat)
    ensures DigitsValue(Digits(n)) == n
    decreases n
  {
    if n >= 10 {
      var s := Digits(n);
      assert s[..|s| - 1] == Digits(n / 10);
      DigitsRoundTrip(n / 10);
    }
  }

  /** `f"{n:02}"`. */
  function Pad2(n: int): (s: string)
    ensures n < 0 ==> 2 <= |s| && s[0] == '-' && s[1..] == Digits(-n)
    ensures n >= 0 ==> 2 <= |s| && AllDigits(s) && DigitsValue(s) == n
    ensures 0 <= n < 100 ==> |s| == 2
    ensures n >= 100 ==> |s| >= 3
    ensures n >= 0 && |s| > 2 ==> s[0] != '0'
  {
    if n < 0 then "-" + Digits(-n)
    else
      DigitsRoundTrip(n);
      if n < 10 then "0" + Digits(n) else Digits(n)
  }

  /** The value `set_interval(hour, minute, second)` stores. No field is clamped: a field
      outside 0..99 is written wider than two digits or with a sign, so the text is not of
      the `HH:MM:SS` form. */
  function FormatInterval(hour: int, minute: int, second: int): (s: string)
    ensures 0 <= hour < 100 && 0 <= minute < 100 && 0 <= second < 100 ==>
      |s| == 8 && s[2] == ':' && s[5] == ':'
      && AllDigits(s[0..2]) && AllDigits(s[3..5]) && AllDigits(s[6..8])
    ensures !(0 <= hour < 100 && 0 <= minute < 100 && 0 <= second < 100) ==> ParseInterval(s).None?
  {
    var h, m, c := Pad2(hour), Pad2(minute), Pad2(second);
    var s := h + ":" + m + ":" + c;
    assert |h| == 2 && |m| == 2 && |c| == 2 ==> s[0..2] == h && s[3..5] == m && s[6..8] == c;
    s
  }

  /** Reads an `HH:MM:SS` string of exactly eight characters. */
  function ParseInterval(s: string): (r: Option<(int, int, int)>)
    ensures r.Some? ==> 0 <= r.value.0 < 100 && 0 <= r.value.1 < 100 && 0 <= r.value.2 < 100
  {
    if |s| == 8 && s[2] == ':' && s[5] == ':'
       && AllDigits(s[0..2]) && AllDigits(s[3..5]) && AllDigits(s[6..8])
    then
      TwoDigitValue(s[0..2]);
      TwoDigitValue(s[3..5]);
      TwoDigitValue(s[6..8]);
      Some((DigitsValue(s[0..2]), DigitsValue(s[3..5]), DigitsValue(s[6..8])))
    else None
  }

  /** The value of a two-digit field. */
  lemma TwoDigitValue(f: string)
    requires |f| == 2 && AllDigits(f)
    ensures DigitsValue(f) == 10 * DigitValue(f[0]) + DigitValue(f[1])
    ensures DigitsValue(f) < 100
  {
    assert f[..1][..0] == [];
    assert DigitsValue(f[..1]) == DigitValue(f[0]);
  }

  /** A two-character field of digits is the padded form of its value. */
  lemma TwoDigitsArePadded(f: string)
    requires |f| == 2 && AllDigits(f)
    ensures Pad2(DigitsValue(f)) == f
  {
    var n := DigitsValue(f);
    TwoDigitValue(f);
    var hi := DigitValue(f[0]);
    var lo := DigitValue(f[1]);
    assert n == 10 * hi + lo;
    if hi == 0 {
      assert Digits(n) == [f[1]];
    } else {
      assert n / 10 == hi && n % 10 == lo;
      assert Digits(n / 10) == [f[0]];
    }
  }

  /** For fields 0..99, the stored interval text parses back to the same fields. */
  lemma FormatThenParse(hour: int, minute: int, second: int)
    requires 0 <= hour < 100 && 0 <= minute < 100 && 0 <= second < 100
    ensures ParseInterval(FormatInterval(hour, minute, second)) == Some((hour, minute, second))
  {
    var s := FormatInterval(hour, minute, second);
    assert s[0..2] == Pad2(hour);
    assert s[3..5] == Pad2(minute);
    assert s[6..8] == Pad2(second);
  }

  /** Every `HH:MM:SS` string is the stored form of the fields it parses to. */
  lemma ParseThenFormat(s: string)
    requires ParseInterval(s).Some?
    ensures var v := ParseInterval(s).value; FormatInterval(v.0, v.1, v.2) == s
  {
    TwoDigitsArePadded(s[0..2]);
    TwoDigitsArePadded(s[3..5]);
    TwoDigitsArePadded(s[6..8]);
    assert s == s[0..2] + ":" + s[3..5] + ":" + s[6..8];
  }

  /** `FormatThenParse` for any fields, as an implication. */
  lemma InRangeParsesBack(hour: int, minute: int, second: int)
    ensures 0 <= hour < 100 && 0 <= minute < 100 && 0 <= second < 100 ==>
      ParseInterval(FormatInterval(hour, minute, second)) == Some((hour, minute, second))
  {
    if 0 <= hour < 100 && 0 <= minute < 100 && 0 <= second < 100 {
      FormatThenParse(hour, minute, second);
    }
  }

  /** `ParseThenFormat` for any string, as an implication. */
  lemma ParsedIsFormatted(s: string)
    ensures var p := ParseInterval(s); p.Some? ==> FormatInterval(p.value.0, p.value.1, p.value.2) == s
  {
    if ParseInterval(s).Some? {
      ParseThenFormat(s);
    }
  }

  /** Fields outside 0..99 are stored unclamped: 200, 70, 0 becomes "200:70:00". */
  lemma TwoHundredSeventyZero()
    ensures FormatInterval(200, 70, 0) == "200:70:00"
  {
    assert Digits(200) == "200" by {
      assert Digits(2) == "2";
      assert Digits(20) == "20";
    }
    assert Digits(70) == "70" by { assert Digits(7) == "7"; }
    assert Digits(0) == "0";
  }

  /** The example the emulator's readback is exercised with. */
  lemma TenTwentyThirty()
    ensures FormatInterval(10, 20, 30) == "10:20:30"
  {
    assert Digits(10) == "10" by { assert Digits(1) == "1"; }
    assert Digits(20) == "20" by { assert Digits(2) == "2"; }
    assert Digits(30) == "30" by { assert Digits(3) == "3"; }
  }
}
