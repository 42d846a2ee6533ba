/** Local dates and minutes under a fixed zone offset, and the HH:MM text of a trigger. */
module LocalClock {
  import opened Protocol

  const MINUTES_PER_DAY: nat := 1440

  // The local calendar day of instant t, counted from the epoch, and its minute of that day.
  function DayOf(t: int, offset: int): int { (t + offset) / DAY }

  function MinuteOf(t: int, offset: int): (m: nat)
    ensures m < MINUTES_PER_DAY
  {
    ((t + offset) % DAY) / MINUTE
  }

  // When minute m of local day d begins.
  function MinuteStart(d: int, m: nat, offset: int): int { d * DAY + m * MINUTE - offset }

  predicate Within(t: int, d: int, m: nat, offset: int) {
    MinuteStart(d, m, offset) <= t < MinuteStart(d, m, offset) + MINUTE
  }

  lemma WithinIsSameMinute(t: int, d: int, m: nat, offset: int)
    requires m < MINUTES_PER_DAY
    ensures Within(t, d, m, offset) <==> DayOf(t, offset) == d && MinuteOf(t, offset) == m
  {
    var local := t + offset;
    var day, rest := local / DAY, local % DAY;
    var minute := rest / MINUTE;
    assert local == day * DAY + rest && 0 <= rest < DAY;
    assert minute * MINUTE <= rest < minute * MINUTE + MINUTE;
  }

  lemma DaysFollowTime(s: int, t: int, offset: int)
    requires s <= t
    ensures DayOf(s, offset) <= DayOf(t, offset)
  {}

  // ---------- Text ----------

  function Digit(d: nat): char
    requires d < 10
  {
    '0' + d as char
  }

  function Format(m: nat): string
    requires m < MINUTES_PER_DAY
  {
    var h, mm := m / 60, m % 60;
    [Digit(h / 10), Digit(h % 10), ':', Digit(mm / 10), Digit(mm % 10)]
  }

  predicate IsDigit(c: char) { '0' <= c <= '9' }

  function Value(c: char): nat
    requires IsDigit(c)
  {
    (c - '0') as nat
  }

  // A text that reads as minute m of the day: its first two digits are the hour, its last two the
  // minute of the hour.
  predicate Denotes(s: string, m: int) {
    && |s| == 5 && IsDigit(s[0]) && IsDigit(s[1]) && s[2] == ':' && IsDigit(s[3]) && IsDigit(s[4])
    && 0 <= 10 * Value(s[0]) + Value(s[1]) < 24 && 0 <= 10 * Value(s[3]) + Value(s[4]) < 60
    && m == 60 * (10 * Value(s[0]) + Value(s[1])) + 10 * Value(s[3]) + Value(s[4])
  }

  lemma DigitValue(d: nat)
    requires d < 10
    ensures IsDigit(Digit(d)) && Value(Digit(d)) == d
  {}

  // What a clock reading says, digit by digit.
  lemma FormatDigits(m: nat)
    requires m < MINUTES_PER_DAY
    ensures var s := Format(m);
            && |s| == 5 && s[2] == ':'
            && IsDigit(s[0]) && IsDigit(s[1]) && 10 * Value(s[0]) + Value(s[1]) == m / 60
            && IsDigit(s[3]) && IsDigit(s[4]) && 10 * Value(s[3]) + Value(s[4]) == m % 60
  {
    DigitValue(m / 60 / 10);
    DigitValue(m / 60 % 10);
    DigitValue(m % 60 / 10);
    DigitValue(m % 60 % 10);
  }

  lemma ValueIsInjective(c: char, d: char)
    requires IsDigit(c) && IsDigit(d) && Value(c) == Value(d)
    ensures c == d
  {}

  lemma PairIsInjective(a: char, b: char, c: char, d: char)
    requires IsDigit(a) && IsDigit(b) && IsDigit(c) && IsDigit(d)
    requires 10 * Value(a) + Value(b) == 10 * Value(c) + Value(d)
    ensures a == c && b == d
  {
    ValueIsInjective(a, c);
    ValueIsInjective(b, d);
  }

  // A text is the clock's reading at minute m exactly when its digits say so.
  lemma ReadingDenotes(s: string, m: nat)
    requires m < MINUTES_PER_DAY
    ensures Denotes(s, m) <==> Format(m) == s
  {
    FormatDigits(m);
    if Denotes(s, m) {
      var t := Format(m);
      assert 10 * Value(s[0]) + Value(s[1]) == m / 60 && 10 * Value(s[3]) + Value(s[4]) == m % 60;
      PairIsInjective(s[0], s[1], t[0], t[1]);
      PairIsInjective(s[3], s[4], t[3], t[4]);
      assert s == t;
    }
  }

  // Seven minutes past two in the night, and the last minute of the day.
  lemma SomeReadings()
    ensures Format(127) == "02:07" && Format(1439) == "23:59" && Value('0') == 0 && Value('7') == 7
  {}

  lemma FormatIsInjective(a: nat, b: nat)
    requires a < MINUTES_PER_DAY && b < MINUTES_PER_DAY && Format(a) == Format(b)
    ensures a == b
  {
    assert Format(a)[0] == Format(b)[0] && Format(a)[1] == Format(b)[1];
    assert Format(a)[3] == Format(b)[3] && Format(a)[4] == Format(b)[4];
    assert a / 60 == b / 60 && a % 60 == b % 60;
  }

  // What the admin form accepts: an hour of one or two digits, a colon, a two-digit minute.
  predicate Accepts(s: string) {
    || (|s| == 5 && IsDigit(s[0]) && IsDigit(s[1]) && s[2] == ':' && IsDigit(s[3]) && IsDigit(s[4])
        && Value(s[0]) * 10 + Value(s[1]) < 24 && Value(s[3]) * 10 + Value(s[4]) < 60)
    || (|s| == 4 && IsDigit(s[0]) && s[1] == ':' && IsDigit(s[2]) && IsDigit(s[3])
        && Value(s[2]) * 10 + Value(s[3]) < 60)
  }

  // The form accepts the readings of the clock, and those of the first ten hours without their zero.
  lemma AcceptsMeans(s: string)
    ensures |s| == 5 ==> (Accepts(s) <==> exists m: nat :: m < MINUTES_PER_DAY && Denotes(s, m))
    ensures |s| == 4 ==> (Accepts(s) <==> Accepts("0" + s))
    ensures |s| != 4 && |s| != 5 ==> !Accepts(s)
  {
    if |s| == 5 && Accepts(s) {
      var m := 60 * (10 * Value(s[0]) + Value(s[1])) + 10 * Value(s[3]) + Value(s[4]);
      assert Denotes(s, m);
    }
    if |s| == 4 {
      var t := "0" + s;
      assert t[0] == '0' && t[1] == s[0] && t[2] == s[1] && t[3] == s[2] && t[4] == s[3];
    }
  }

  // An accepted time ever equals a formatted clock reading exactly when it has five characters, and
  // then only the reading of the minute it denotes.
  lemma AcceptedTimeCanMatch(s: string)
    requires Accepts(s)
    ensures (exists m: nat :: m < MINUTES_PER_DAY && Format(m) == s) <==> |s| == 5
    ensures |s| == 5 ==> exists m: nat :: m < MINUTES_PER_DAY && Denotes(s, m)
  {
    if |s| == 5 {
      var m := 60 * (10 * Value(s[0]) + Value(s[1])) + 10 * Value(s[3]) + Value(s[4]);
      assert Denotes(s, m);
      ReadingDenotes(s, m);
    }
  }

  // "9:05" is accepted, and no minute of any day is ever written that way.
  lemma ShortHourNeverMatches(m: nat)
    requires m < MINUTES_PER_DAY
    ensures Accepts("9:05") && Format(m) != "9:05"
  {
    assert |Format(m)| == 5 && |"9:05"| == 4;
  }
}
