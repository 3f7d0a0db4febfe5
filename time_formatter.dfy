/**
 * The "M:SS" duration text of src/utils/timeFormatter.js: whole minutes, a
 * colon, and the seconds left over, padded to two characters with '0'.
 *
 * The source divides with Math.floor and takes the remainder with JavaScript's
 * `%`, which keeps the sign of the dividend; both are written out here so
 * that the text of a negative count is the one the app would print.
 */
module TimeFormatter {
  import opened Wrappers
  import opened NumberText

  /** JavaScript's `a % b` for a positive divisor: truncating, sign of the dividend. */
  function JsRemainder(a: int, b: int): (r: int)
    requires b > 0
    ensures a >= 0 ==> r == a % b
    ensures a < 0 ==> -b < r <= 0
  {
    if a >= 0 then a % b else -((-a) % b)
  }

  /** A multiple of 60 leaves no remainder. */
  lemma MultipleOfSixty(k: int)
    ensures (60 * k) % 60 == 0
  {
    var x := 60 * k;
    var q, r := x / 60, x % 60;
    assert x == 60 * q + r && 0 <= r < 60;
    assert 60 * (k - q) == r;
    if k - q != 0 {
      assert false;
    }
  }

  /**
   * The remainder differs from the count by a whole number of minutes, so with
   * its range it is fixed: `secs % 60` in JavaScript, negative counts included.
   */
  lemma JsRemainderCongruent(a: int)
    ensures (a - JsRemainder(a, 60)) % 60 == 0
  {
    if a < 0 {
      var q := (-a) / 60;
      assert a - JsRemainder(a, 60) == 60 * (-q);
      MultipleOfSixty(-q);
    }
  }

  /** String.prototype.padStart(2, '0'). */
  function PadStart2(s: string): (r: string)
    ensures |r| == if |s| >= 2 then |s| else 2
    ensures r[|r| - |s|..] == s
    ensures forall i :: 0 <= i < |r| - |s| ==> r[i] == '0'
  {
    if |s| >= 2 then s else if |s| == 1 then "0" + s else "00"
  }

  /** formatSeconds: minutes by floor division, then ':', then the padded remainder. */
  function FormatSeconds(secs: int): (r: string)
    ensures |r| >= 4
    ensures secs >= 0 ==> |r| == |IntToString(secs / 60)| + 3
  {
    var seconds := JsRemainder(secs, 60);
    assert secs >= 0 ==> |IntToString(seconds)| <= 2 by {
      if secs >= 0 && seconds >= 10 {
        assert |NatToString(seconds / 10)| == 1;
      }
    }
    IntToString(secs / 60) + ":" + PadStart2(IntToString(seconds))
  }

  /** Position of the first ':' in s, or |s| when there is none. */
  function ColonIndex(s: string): (i: nat)
    ensures i <= |s|
    ensures i < |s| ==> s[i] == ':'
    ensures forall j :: 0 <= j < i ==> s[j] != ':'
  {
    if s == [] || s[0] == ':' then 0 else 1 + ColonIndex(s[1..])
  }

  /** The text before the first ':' (the whole text when there is none): split(':')[0]. */
  function BeforeColon(s: string): string {
    s[..ColonIndex(s)]
  }

  /** The text after the first ':' (empty when there is none). */
  function AfterColon(s: string): string {
    if ColonIndex(s) < |s| then s[ColonIndex(s) + 1..] else ""
  }

  /**
   * Reads an "M:SS" text back as a number of seconds: digits, one ':', then
   * exactly two digits worth less than 60. Any other shape reads as None.
   */
  function ReadBack(s: string): Option<nat> {
    var m := BeforeColon(s);
    var sec := AfterColon(s);
    if ColonIndex(s) < |s| && |m| > 0 && AllDigits(m) && |sec| == 2 && AllDigits(sec) && DigitsValue(sec) < 60
    then Some(DigitsValue(m) * 60 + DigitsValue(sec))
    else None
  }

  lemma {:induction false} ColonIndexOfJoin(a: string, b: string)
    requires ':' !in a
    ensures ColonIndex(a + ":" + b) == |a|
  {
    if a != [] {
      assert (a + ":" + b)[1..] == a[1..] + ":" + b;
      ColonIndexOfJoin(a[1..], b);
    }
  }

  /** Two colon-free texts joined by ':' split back into themselves. */
  lemma JoinFields(a: string, b: string)
    requires ':' !in a && ':' !in b
    ensures ColonIndex(a + ":" + b) == |a|
    ensures BeforeColon(a + ":" + b) == a && AfterColon(a + ":" + b) == b
    ensures multiset(a + ":" + b)[':'] == 1
  {
    var r := a + ":" + b;
    ColonIndexOfJoin(a, b);
    assert r[..|a|] == a;
    assert r[|a| + 1..] == b;
    assert multiset(r) == multiset(a) + multiset(":") + multiset(b);
  }

  /** Both fields of the output of FormatSeconds, for any integer count. */
  lemma FormatSecondsFields(secs: int)
    ensures ColonIndex(FormatSeconds(secs)) < |FormatSeconds(secs)|
    ensures BeforeColon(FormatSeconds(secs)) == IntToString(secs / 60)
    ensures AfterColon(FormatSeconds(secs)) == PadStart2(IntToString(JsRemainder(secs, 60)))
    ensures multiset(FormatSeconds(secs))[':'] == 1
  {
    var t := IntToString(JsRemainder(secs, 60));
    var sec := PadStart2(t);
    assert ':' !in sec by {
      if |t| < 2 {
        assert sec == "0" + t || sec == "00";
      }
    }
    JoinFields(IntToString(secs / 60), sec);
  }

  /** Two digits whose value is below 60, for the remainder of a non-negative count. */
  lemma SecondsFieldOfNat(r: nat)
    requires r < 60
    ensures |PadStart2(IntToString(r))| == 2
    ensures AllDigits(PadStart2(IntToString(r)))
    ensures DigitsValue(PadStart2(IntToString(r))) == r
  {
    var t := IntToString(r);
    var p := PadStart2(t);
    NatToStringRoundTrip(r);
    if r < 10 {
      assert p == ['0', t[0]];
      assert p[..1] == "0";
    } else {
      assert p == t;
    }
  }

  /** Fields that read back as m minutes and sec seconds make m * 60 + sec. */
  lemma ReadBackOfFields(s: string, m: nat, sec: nat)
    requires ColonIndex(s) < |s|
    requires NatToString(m) == BeforeColon(s)
    requires sec < 60 && |AfterColon(s)| == 2 && AllDigits(AfterColon(s)) && DigitsValue(AfterColon(s)) == sec
    ensures ReadBack(s) == Some(m * 60 + sec)
  {
    NatToStringRoundTrip(m);
  }

  /** A text whose minutes field starts with '-' does not read back. */
  lemma ReadBackOfNegative(s: string)
    requires |BeforeColon(s)| > 0 && BeforeColon(s)[0] == '-'
    ensures ReadBack(s) == None
  {
    assert !IsDigit(BeforeColon(s)[0]);
  }

  /**
   * Round trip: for a non-negative count the text reads back as that count;
   * a negative count prints a '-' and is not "M:SS" text at all.
   */
  lemma FormatSecondsReadBack(secs: int)
    ensures ReadBack(FormatSeconds(secs)) == if secs >= 0 then Some(secs) else None
  {
    if secs >= 0 {
      ReadBackOfNatCount(secs);
    } else {
      ReadBackOfNegativeCount(secs);
    }
  }

  lemma ReadBackOfNatCount(secs: nat)
    ensures ReadBack(FormatSeconds(secs)) == Some(secs)
  {
    var m, sec := secs / 60, secs % 60;
    assert m * 60 + sec == secs;
    FormatSecondsFields(secs);
    SecondsFieldOfNat(sec);
    ReadBackOfFields(FormatSeconds(secs), m, sec);
  }

  lemma ReadBackOfNegativeCount(secs: int)
    requires secs < 0
    ensures ReadBack(FormatSeconds(secs)) == None
  {
    FormatSecondsFields(secs);
    assert IntToString(secs / 60)[0] == '-';
    ReadBackOfNegative(FormatSeconds(secs));
  }

  /** For a non-negative count: minutes unpadded and unbounded, seconds two digits below 60. */
  lemma FormatSecondsShape(secs: nat)
    ensures BeforeColon(FormatSeconds(secs)) == NatToString(secs / 60)
    ensures |AfterColon(FormatSeconds(secs))| == 2 && AllDigits(AfterColon(FormatSeconds(secs)))
    ensures DigitsValue(AfterColon(FormatSeconds(secs))) == secs % 60 < 60
    ensures multiset(FormatSeconds(secs))[':'] == 1
  {
    FormatSecondsFields(secs);
    SecondsFieldOfNat(secs % 60);
  }

  lemma FormatSecondsExamples()
    ensures FormatSeconds(0) == "0:00"
    ensures FormatSeconds(65) == "1:05"
    ensures FormatSeconds(300) == "5:00"
  {
    assert IntToString(0) == "0" && IntToString(1) == "1" && IntToString(5) == "5";
    assert JsRemainder(0, 60) == 0 && JsRemainder(65, 60) == 5 && JsRemainder(300, 60) == 0;
    assert PadStart2("0") == "00" && PadStart2("5") == "05";
  }

  /** A negative count keeps JavaScript's signs in both fields. */
  lemma NegativeFormatExample()
    ensures FormatSeconds(-65) == "-2:-5"
  {
    assert -65 / 60 == -2 && JsRemainder(-65, 60) == -5;
    assert NatToString(2) == "2" && NatToString(5) == "5";
    assert IntToString(-2) == "-2" && IntToString(-5) == "-5";
    assert PadStart2("-5") == "-5";
  }
}
