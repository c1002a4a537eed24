/** The message timestamp: `getCurrentTime` renders the hour and minute of
    the wall clock as `HH:MM`. The clock reading itself is an input. */
module Clock {
  import opened Wrappers
  import opened JsText

  /** A wall-clock reading as `Date.getHours()` / `getMinutes()` report it. */
  datatype Time = Time(hours: nat, minutes: nat)

  /** The range `Date` guarantees for its readings. */
  predicate ValidTime(t: Time) {
    t.hours < 24 && t.minutes < 60
  }

  /** `n.toString().padStart(2, '0')`. Every value below 100 becomes exactly
      two digits that read back as `n`. */
  function TwoDigits(n: nat): (r: string)
    ensures n < 100 ==> |r| == 2 && IsDigit(r[0]) && IsDigit(r[1])
    ensures n < 100 ==> 10 * DigitValue(r[0]) + DigitValue(r[1]) == n
  {
    var d := ToDecimal(n);
    var r := PadStart(d, 2, '0');
    assert n < 100 ==> |r| == 2 && 10 * DigitValue(r[0]) + DigitValue(r[1]) == n by {
      if n < 100 {
        if |d| > 2 {
          DecimalValueLowerBound(d);
        }
        if |d| == 1 {
          assert r == ['0'] + d;
        } else {
          assert d == r;
          assert d[..1] == [d[0]];
        }
      }
    }
    r
  }

  /** A digit string of three or more digits without a leading zero denotes
      at least 100. */
  lemma {:induction false} DecimalValueLowerBound(s: string)
    requires AllDigits(s)
    requires |s| >= 3 && s[0] != '0'
    ensures DecimalValue(s) >= 100
  {
    var p := s[..|s| - 1];
    if |s| == 3 {
      assert p[..1] == [s[0]];
      assert DecimalValue(p) == 10 * DecimalValue(p[..1]) + DigitValue(p[1]);
      assert DecimalValue(p[..1]) == DigitValue(s[0]) by {
        assert p[..1][..0] == [];
      }
    } else {
      DecimalValueLowerBound(p);
    }
  }

  /** `getCurrentTime()`: the two fields zero-padded and joined by a colon. */
  function GetCurrentTime(now: Time): (r: string)
    ensures ValidTime(now) ==> |r| == 5 && r[2] == ':'
    ensures ValidTime(now) ==> IsDigit(r[0]) && IsDigit(r[1]) && IsDigit(r[3]) && IsDigit(r[4])
  {
    TwoDigits(now.hours) + ":" + TwoDigits(now.minutes)
  }

  /** Reads an `HH:MM` stamp back into a clock reading. */
  function ParseTime(s: string): Option<Time> {
    if |s| == 5 && s[2] == ':' && IsDigit(s[0]) && IsDigit(s[1]) && IsDigit(s[3]) && IsDigit(s[4]) then
      Some(Time(10 * DigitValue(s[0]) + DigitValue(s[1]), 10 * DigitValue(s[3]) + DigitValue(s[4])))
    else
      None
  }

  /** Two two-digit fields joined by a colon parse back into their values. */
  lemma ParseJoined(h: string, m: string)
    requires |h| == 2 && IsDigit(h[0]) && IsDigit(h[1])
    requires |m| == 2 && IsDigit(m[0]) && IsDigit(m[1])
    ensures ParseTime(h + ":" + m)
            == Some(Time(10 * DigitValue(h[0]) + DigitValue(h[1]), 10 * DigitValue(m[0]) + DigitValue(m[1])))
  {
    var r := h + ":" + m;
    assert r[0] == h[0] && r[1] == h[1] && r[2] == ':' && r[3] == m[0] && r[4] == m[1];
  }

  /** The stamp loses nothing: each field is recovered from its two digits. */
  lemma ParseGetCurrentTime(now: Time)
    ensures ValidTime(now) ==> ParseTime(GetCurrentTime(now)) == Some(now)
  {
    if ValidTime(now) {
      var h := TwoDigits(now.hours);
      var m := TwoDigits(now.minutes);
      assert 10 * DigitValue(h[0]) + DigitValue(h[1]) == now.hours;
      assert 10 * DigitValue(m[0]) + DigitValue(m[1]) == now.minutes;
      ParseJoined(h, m);
      assert GetCurrentTime(now) == h + ":" + m;
    }
  }
}
