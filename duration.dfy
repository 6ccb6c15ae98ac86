/**
  The duration formatter of rezz/utils.py: milliseconds rendered as `M:SS`,
  minutes taken modulo 60 and without padding, seconds always two digits.
*/
module Duration {
  import opened Maybe

  predicate IsDigit(c: char) {
    '0' <= c <= '9'
  }

  predicate AllDigits(s: string) {
    forall i :: 0 <= i < |s| ==> IsDigit(s[i])
  }

  function DigitChar(d: nat): (c: char)
    requires d < 10
    ensures IsDigit(c)
  {
    ('0' as int + d) as char
  }

  function DigitValue(c: char): (d: nat)
    requires IsDigit(c)
    ensures d < 10 && DigitChar(d) == c
  {
    c as int - '0' as int
  }

  /** Python's `str(n)` for a non-negative integer: decimal digits, no leading zero. */
  function Decimal(n: nat): (s: string)
    ensures 1 <= |s| && AllDigits(s)
    ensures s[0] == '0' ==> n == 0 && |s| == 1
    ensures n < 10 <==> |s| == 1
  {
    if n < 10 then [DigitChar(n)] else Decimal(n / 10) + [DigitChar(n % 10)]
  }

  /** Python's `int(s)` for a string of decimal digits. */
  function DecimalValue(s: string): nat
    requires AllDigits(s)
  {
    if s == [] then 0 else DecimalValue(s[..|s| - 1]) * 10 + DigitValue(s[|s| - 1])
  }

  /** `int(str(n)) == n`: reading back a rendered number gives the number. */
  lemma {:induction false} DecimalRoundTrip(n: nat)
    ensures DecimalValue(Decimal(n)) == n
  {
    var s := Decimal(n);
    if n >= 10 {
      DecimalRoundTrip(n / 10);
      assert s[..|s| - 1] == Decimal(n / 10);
      assert DigitValue(s[|s| - 1]) == n % 10;
    } else {
      assert s[..|s| - 1] == [];
    }
  }

  /**
    `get_duration(ms)`. The source divides as floating point and truncates with
    `int(...)`; Python's `%` on a float is never negative, so `int((ms/1000) % 60)`
    is the floor of `ms/1000` taken modulo 60 for every integer `ms` a double
    holds exactly (below 2^53 in magnitude), which is what Dafny's `/` and `%`
    compute for a positive divisor.
  */
  function GetDuration(ms: int): (r: string)
    ensures 4 <= |r| <= 5 && r[|r| - 3] == ':'
    ensures forall i :: 0 <= i < |r| && i != |r| - 3 ==> IsDigit(r[i])
    ensures AllDigits(r[..|r| - 3]) && DecimalValue(r[..|r| - 3]) == (ms / 60000) % 60
    ensures r[0] != '0' || |r| == 4
    ensures AllDigits(r[|r| - 2..]) && DecimalValue(r[|r| - 2..]) == (ms / 1000) % 60
    ensures r[|r| - 2] == '0' <==> (ms / 1000) % 60 < 10
  {
    var seconds := (ms / 1000) % 60;
    var minutes := (ms / (1000 * 60)) % 60;
    var secondsText := Decimal(seconds);
    var r := Decimal(minutes) + ":" + (if seconds >= 10 then secondsText else "0" + secondsText);
    DurationFields(minutes, seconds, r);
    r
  }

  lemma DurationFields(minutes: nat, seconds: nat, r: string)
    requires minutes < 60 && seconds < 60
    requires r == Decimal(minutes) + ":" + (if seconds >= 10 then Decimal(seconds) else "0" + Decimal(seconds))
    ensures 4 <= |r| <= 5 && r[|r| - 3] == ':'
    ensures r[..|r| - 3] == Decimal(minutes)
    ensures forall i :: 0 <= i < |r| && i != |r| - 3 ==> IsDigit(r[i])
    ensures AllDigits(r[|r| - 2..]) && DecimalValue(r[|r| - 2..]) == seconds
    ensures r[|r| - 2] == '0' <==> seconds < 10
    ensures DecimalValue(r[..|r| - 3]) == minutes
  {
    var m := Decimal(minutes);
    var ss := if seconds >= 10 then Decimal(seconds) else "0" + Decimal(seconds);
    assert |m| <= 2 by {
      if minutes >= 10 { assert Decimal(minutes / 10) == [DigitChar(minutes / 10)]; }
    }
    assert |ss| == 2 by {
      if seconds >= 10 { assert Decimal(seconds / 10) == [DigitChar(seconds / 10)]; }
    }
    assert r == m + [':'] + ss;
    assert r[..|r| - 3] == m;
    assert r[|r| - 2..] == ss;
    DecimalRoundTrip(minutes);
    DecimalRoundTrip(seconds);
    if seconds < 10 {
      assert DecimalValue(ss) == DecimalValue(ss[..1]) * 10 + DigitValue(ss[1]);
      assert ss[..1] == "0";
      assert DecimalValue("0") == DecimalValue([]) * 10 + 0;
    } else {
      assert ss[0] != '0';
    }
  }

  /** Reads an `M:SS` display back as a number of seconds `M*60 + SS`. */
  function DisplayedSeconds(s: string): Option<nat> {
    if 4 <= |s| && s[|s| - 3] == ':' && AllDigits(s[..|s| - 3]) && AllDigits(s[|s| - 2..])
    then Some(DecimalValue(s[..|s| - 3]) * 60 + DecimalValue(s[|s| - 2..]))
    else None
  }

  /** Whole minutes are whole seconds divided by sixty: `ms div 60000 == (ms div 1000) div 60`. */
  lemma MinutesFromSeconds(ms: int)
    ensures ms / 60000 == (ms / 1000) / 60
  {
    var s, a := ms / 1000, (ms / 1000) / 60;
    var b := s % 60;
    assert ms == s * 1000 + ms % 1000;
    assert s == a * 60 + b;
    assert ms == a * 60000 + (b * 1000 + ms % 1000);
  }

  /** Minutes within the hour and seconds within the minute add up to the seconds within the hour. */
  lemma SecondsWithinHour(s: int)
    ensures (s / 60) % 60 * 60 + s % 60 == s % 3600
  {
    var a := s / 60;
    assert s == a * 60 + s % 60;
    assert a == (a / 60) * 60 + a % 60;
    assert s == (a / 60) * 3600 + ((a % 60) * 60 + s % 60);
  }

  /**
    Round trip: the display read back as `M*60 + SS` is the number of whole
    seconds modulo one hour.
  */
  lemma DurationRoundTrip(ms: int)
    ensures DisplayedSeconds(GetDuration(ms)) == Some((ms / 1000) % 3600)
  {
    var r := GetDuration(ms);
    assert AllDigits(r[..|r| - 3]) && AllDigits(r[|r| - 2..]);
    var m, ss := DecimalValue(r[..|r| - 3]), DecimalValue(r[|r| - 2..]);
    assert DisplayedSeconds(r) == Some(m * 60 + ss);
    MinutesFromSeconds(ms);
    SecondsWithinHour(ms / 1000);
  }

  /** Milliseconds below a whole second never show. */
  lemma SubSecondIgnored(ms: int)
    ensures GetDuration(ms) == GetDuration(ms - ms % 1000)
  {
    var t := ms - ms % 1000;
    assert t / 1000 == ms / 1000;
    MinutesFromSeconds(ms);
    MinutesFromSeconds(t);
  }

  /** Minutes wrap at one hour; the boundary cases of the display. */
  lemma DurationZero()
    ensures GetDuration(0) == "0:00"
  {
    assert GetDuration(0) == Decimal(0) + ":" + "0" + Decimal(0);
  }

  lemma DurationOneMinuteFive()
    ensures GetDuration(65000) == "1:05"
  {
    assert GetDuration(65000) == Decimal(1) + ":" + "0" + Decimal(5);
  }

  lemma DurationLastSecondOfHour()
    ensures GetDuration(3599000) == "59:59"
  {
    assert Decimal(59) == Decimal(5) + [DigitChar(9)];
    assert GetDuration(3599000) == Decimal(59) + ":" + Decimal(59);
  }

  lemma DurationWrapsAtHour()
    ensures GetDuration(3600000) == "0:00"
  {
    assert GetDuration(3600000) == Decimal(0) + ":" + "0" + Decimal(0);
  }
}
