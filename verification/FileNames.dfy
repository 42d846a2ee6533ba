/** Names of backup files, and how much of a backup can be read back from one. */
module FileNames {
  import opened Wrappers
  import opened LocalClock
  import opened RegistryTables

  function Extension(driver: string): Result<string> {
    if driver == "mysql" || driver == "postgres" then Ok("sql")
    else if driver == "mongo" then Ok("archive")
    else Err("unknown driver: " + driver)
  }

  datatype Date = Date(year: nat, month: nat, day: nat)

  predicate IsDate(d: Date) { 1 <= d.month <= 12 && 1 <= d.day <= 31 }

  function TwoDigits(n: nat): string
    requires n < 100
  {
    [Digit(n / 10), Digit(n % 10)]
  }

  // Year, month and day; the year without its century.
  function DateText(d: Date): (s: string)
    requires IsDate(d)
    ensures |s| == 6
  {
    TwoDigits(d.year % 100) + TwoDigits(d.month) + TwoDigits(d.day)
  }

  function StampText(minute: nat): (s: string)
    requires minute < MINUTES_PER_DAY
    ensures |s| == 5
  {
    TwoDigits(minute / 60) + "h" + TwoDigits(minute % 60)
  }

  // The two digits at position i of a text, read as a number.
  function NumberAt(s: string, i: nat): nat
    requires i + 1 < |s| && IsDigit(s[i]) && IsDigit(s[i + 1])
  {
    10 * Value(s[i]) + Value(s[i + 1])
  }

  lemma TwoDigitsRead(n: nat)
    requires n < 100
    ensures var s := TwoDigits(n); |s| == 2 && IsDigit(s[0]) && IsDigit(s[1]) && NumberAt(s, 0) == n
  {
    DigitValue(n / 10);
    DigitValue(n % 10);
  }

  // Hour, h, minute.
  lemma StampReads(minute: nat)
    requires minute < MINUTES_PER_DAY
    ensures var s := StampText(minute);
            && s[2] == 'h' && IsDigit(s[0]) && IsDigit(s[1]) && IsDigit(s[3]) && IsDigit(s[4])
            && NumberAt(s, 0) == minute / 60 && NumberAt(s, 3) == minute % 60
  {
    TwoDigitsRead(minute / 60);
    TwoDigitsRead(minute % 60);
    var s := StampText(minute);
    assert s[3] == TwoDigits(minute % 60)[0] && s[4] == TwoDigits(minute % 60)[1];
  }

  // Year of the century, month, day.
  lemma DateReads(d: Date)
    requires IsDate(d)
    ensures var s := DateText(d);
            && (forall i :: 0 <= i < 6 ==> IsDigit(s[i]))
            && NumberAt(s, 0) == d.year % 100 && NumberAt(s, 2) == d.month && NumberAt(s, 4) == d.day
  {
    TwoDigitsRead(d.year % 100);
    TwoDigitsRead(d.month);
    TwoDigitsRead(d.day);
    var s, y, m, n := DateText(d), TwoDigits(d.year % 100), TwoDigits(d.month), TwoDigits(d.day);
    assert s[0] == y[0] && s[1] == y[1] && s[2] == m[0] && s[3] == m[1] && s[4] == n[0] && s[5] == n[1];
  }

  // The relational drivers dump SQL text, mongo an archive, and no other driver has a file.
  lemma ExtensionMeans(driver: string)
    ensures Extension(driver) == Ok("sql") <==> driver == "mysql" || driver == "postgres"
    ensures Extension(driver) == Ok("archive") <==> driver == "mongo"
    ensures Extension(driver).Err? <==> driver != "mysql" && driver != "postgres" && driver != "mongo"
  {}

  datatype Parts = Parts(name: string, date: string, stamp: string, ext: string)

  predicate WellFormed(p: Parts) {
    |p.date| == 6 && |p.stamp| == 5 && (p.ext == "sql" || p.ext == "archive")
  }

  function Join(p: Parts): string {
    p.name + "_" + p.date + "_" + p.stamp + "." + p.ext + ".gz"
  }

  // The name of a backup whose date and time were read from the clock one after the other.
  function FileName(name: string, driver: string, date: Date, minute: nat): Result<string>
    requires IsDate(date) && minute < MINUTES_PER_DAY
  {
    var ext := Extension(driver);
    if ext.Err? then ext else Ok(Join(Parts(name, DateText(date), StampText(minute), ext.value)))
  }

  // ---------- Reading a name from its right end ----------

  predicate EndsWith(s: string, tail: string) {
    |tail| <= |s| && s[|s| - |tail|..] == tail
  }

  function Cut(s: string, n: nat): (r: (string, string))
    requires n <= |s|
    ensures r.0 + r.1 == s && |r.1| == n
  {
    (s[..|s| - n], s[|s| - n..])
  }

  function Unjoin(s: string): Option<Parts> {
    var ext := if EndsWith(s, ".sql.gz") then "sql" else "archive";
    var tail := "." + ext + ".gz";
    if !EndsWith(s, tail) || |s| < |tail| + 13 then None
    else
      var base := Cut(s, |tail|).0;
      var (front, stamp) := Cut(base, 5);
      var (head, date) := Cut(front[..|front| - 1], 6);
      if front[|front| - 1] != '_' || head[|head| - 1] != '_' then None
      else Some(Parts(head[..|head| - 1], date, stamp, ext))
  }

  lemma CutEnd(a: string, b: string)
    ensures Cut(a + b, |b|) == (a, b) && EndsWith(a + b, b)
  {}

  lemma OneExtension(a: string)
    ensures !EndsWith(a + ".archive.gz", ".sql.gz")
  {
    var s := a + ".archive.gz";
    assert s[|s| - 7..][0] == 'h';
  }

  // Every part of a name can be read back from it, whatever underscores and dots the database's
  // own name holds.
  lemma JoinRoundTrip(p: Parts)
    requires WellFormed(p)
    ensures Unjoin(Join(p)) == Some(p)
  {
    var tail := "." + p.ext + ".gz";
    var head := p.name + "_";
    var front := head + p.date + "_";
    var base := front + p.stamp;
    var s := Join(p);
    assert s == base + tail;
    CutEnd(base, tail);
    if p.ext == "archive" { assert tail == ".archive.gz"; OneExtension(base); }
    if p.ext == "sql" { assert tail == ".sql.gz"; }
    CutEnd(front, p.stamp);
    assert front[..|front| - 1] == head + p.date;
    CutEnd(head, p.date);
    assert head[..|head| - 1] == p.name;
  }

  // Reading is exact: a name that reads as some parts is what those parts make.
  lemma UnjoinIsExact(s: string)
    requires Unjoin(s).Some?
    ensures WellFormed(Unjoin(s).value) && Join(Unjoin(s).value) == s
  {
    var p := Unjoin(s).value;
    var tail := "." + p.ext + ".gz";
    var base := Cut(s, |tail|).0;
    var (front, stamp) := Cut(base, 5);
    var (head, date) := Cut(front[..|front| - 1], 6);
    assert front == front[..|front| - 1] + "_";
    assert head == head[..|head| - 1] + "_";
    assert s == base + tail && base == front + stamp && front == head + date + "_";
  }

  // What can be read back from the name of a backup: its database, its kind, and when it was made.
  lemma FileNameReads(name: string, driver: string, date: Date, minute: nat)
    requires IsDate(date) && minute < MINUTES_PER_DAY && Extension(driver).Ok?
    ensures FileName(name, driver, date, minute).Ok?
    ensures var p := Unjoin(FileName(name, driver, date, minute).value);
            && p.Some? && p.value.name == name && WellFormed(p.value)
            && (p.value.ext == "sql" <==> driver == "mysql" || driver == "postgres")
            && (p.value.ext == "archive" <==> driver == "mongo")
            && (forall i :: 0 <= i < 6 ==> IsDigit(p.value.date[i]))
            && NumberAt(p.value.date, 0) == date.year % 100
            && NumberAt(p.value.date, 2) == date.month && NumberAt(p.value.date, 4) == date.day
            && (forall i :: 0 <= i < 5 && i != 2 ==> IsDigit(p.value.stamp[i])) && p.value.stamp[2] == 'h'
            && NumberAt(p.value.stamp, 0) == minute / 60 && NumberAt(p.value.stamp, 3) == minute % 60
  {
    ExtensionMeans(driver);
    JoinRoundTrip(Parts(name, DateText(date), StampText(minute), Extension(driver).value));
    DateReads(date);
    StampReads(minute);
  }

  // ---------- When two backups get the same name ----------

  lemma TwoDigitsAreInjective(a: nat, b: nat)
    requires a < 100 && b < 100
    ensures TwoDigits(a) == TwoDigits(b) <==> a == b
  {
    if TwoDigits(a) == TwoDigits(b) {
      assert TwoDigits(a)[0] == TwoDigits(b)[0] && TwoDigits(a)[1] == TwoDigits(b)[1];
    }
  }

  lemma SplitAt(a: string, b: string, c: string, d: string)
    requires |a| == |c|
    ensures a + b == c + d <==> a == c && b == d
  {
    if a + b == c + d {
      assert (a + b)[..|a|] == a && (c + d)[..|a|] == c;
      assert (a + b)[|a|..] == b && (c + d)[|a|..] == d;
    }
  }

  // The same date, up to the century.
  predicate SameDate(a: Date, b: Date) {
    a.year % 100 == b.year % 100 && a.month == b.month && a.day == b.day
  }

  lemma DateTextMeans(a: Date, b: Date)
    requires IsDate(a) && IsDate(b)
    ensures DateText(a) == DateText(b) <==> SameDate(a, b)
  {
    var ya, yb := TwoDigits(a.year % 100), TwoDigits(b.year % 100);
    SplitAt(ya + TwoDigits(a.month), TwoDigits(a.day), yb + TwoDigits(b.month), TwoDigits(b.day));
    SplitAt(ya, TwoDigits(a.month), yb, TwoDigits(b.month));
    TwoDigitsAreInjective(a.year % 100, b.year % 100);
    TwoDigitsAreInjective(a.month, b.month);
    TwoDigitsAreInjective(a.day, b.day);
  }

  lemma StampTextMeans(a: nat, b: nat)
    requires a < MINUTES_PER_DAY && b < MINUTES_PER_DAY
    ensures StampText(a) == StampText(b) <==> a == b
  {
    SplitAt(TwoDigits(a / 60) + "h", TwoDigits(a % 60), TwoDigits(b / 60) + "h", TwoDigits(b % 60));
    SplitAt(TwoDigits(a / 60), "h", TwoDigits(b / 60), "h");
    TwoDigitsAreInjective(a / 60, b / 60);
    TwoDigitsAreInjective(a % 60, b % 60);
  }

  // Two backups are named alike exactly when database name, kind of dump, minute and calendar
  // date agree, the date up to its century.
  lemma SameNameMeans(n1: string, v1: string, d1: Date, m1: nat, n2: string, v2: string, d2: Date, m2: nat)
    requires IsDate(d1) && IsDate(d2) && m1 < MINUTES_PER_DAY && m2 < MINUTES_PER_DAY
    requires Extension(v1).Ok? && Extension(v2).Ok?
    ensures FileName(n1, v1, d1, m1) == FileName(n2, v2, d2, m2)
       <==> n1 == n2 && Extension(v1) == Extension(v2) && m1 == m2 && SameDate(d1, d2)
  {
    var p1 := Parts(n1, DateText(d1), StampText(m1), Extension(v1).value);
    var p2 := Parts(n2, DateText(d2), StampText(m2), Extension(v2).value);
    JoinRoundTrip(p1);
    JoinRoundTrip(p2);
    DateTextMeans(d1, d2);
    StampTextMeans(m1, m2);
  }

  // The two relational drivers share an extension.
  predicate SqlPair(a: string, b: string) {
    (a == "mysql" && b == "postgres") || (a == "postgres" && b == "mysql")
  }

  // Two databases of this machine backed up in the same minute get one file name exactly when
  // they are a mysql and a postgres database of the same name.
  lemma LocalClashes(t: Tables, i: int, j: int, date: Date, minute: nat)
    requires Integrity(t) && i in t.databases && j in t.databases && i != j
    requires t.databases[i].agentId == 0 && t.databases[j].agentId == 0
    requires IsDate(date) && minute < MINUTES_PER_DAY
    requires Extension(t.databases[i].driver).Ok? && Extension(t.databases[j].driver).Ok?
    ensures var a, b := t.databases[i], t.databases[j];
            FileName(a.name, a.driver, date, minute) == FileName(b.name, b.driver, date, minute)
            <==> a.name == b.name && SqlPair(a.driver, b.driver)
  {
    var a, b := t.databases[i], t.databases[j];
    SameNameMeans(a.name, a.driver, date, minute, b.name, b.driver, date, minute);
    assert !SameTriple(a, b);
  }

  // The name as the program makes it: the date from one reading of the clock, the time from the
  // next. The calendar says which date a local day is.
  function NamedAt(name: string, driver: string, calendar: int -> Date, dateAt: int, timeAt: int, offset: int)
    : Result<string>
    requires IsDate(calendar(DayOf(dateAt, offset)))
  {
    FileName(name, driver, calendar(DayOf(dateAt, offset)), MinuteOf(timeAt, offset))
  }

  // Two backups of one database share a name exactly when their times were read in the same minute
  // of a day and their dates on days that the calendar writes alike, whatever lies between the two
  // readings of either.
  lemma SameNameAt(name: string, driver: string, calendar: int -> Date, offset: int,
                   date1: int, time1: int, date2: int, time2: int)
    requires Extension(driver).Ok?
    requires IsDate(calendar(DayOf(date1, offset))) && IsDate(calendar(DayOf(date2, offset)))
    ensures NamedAt(name, driver, calendar, date1, time1, offset)
         == NamedAt(name, driver, calendar, date2, time2, offset)
       <==> MinuteOf(time1, offset) == MinuteOf(time2, offset)
            && SameDate(calendar(DayOf(date1, offset)), calendar(DayOf(date2, offset)))
  {
    SameNameMeans(name, driver, calendar(DayOf(date1, offset)), MinuteOf(time1, offset),
                  name, driver, calendar(DayOf(date2, offset)), MinuteOf(time2, offset));
  }

  // A backup is named as one whose date was read together with its time, the name its time of day
  // belongs to, exactly when the calendar writes the days of the two readings alike.
  lemma NameIsOfItsTime(name: string, driver: string, calendar: int -> Date, offset: int, dateAt: int, timeAt: int)
    requires Extension(driver).Ok?
    requires IsDate(calendar(DayOf(dateAt, offset))) && IsDate(calendar(DayOf(timeAt, offset)))
    ensures NamedAt(name, driver, calendar, dateAt, timeAt, offset)
         == NamedAt(name, driver, calendar, timeAt, timeAt, offset)
       <==> SameDate(calendar(DayOf(dateAt, offset)), calendar(DayOf(timeAt, offset)))
  {
    SameNameAt(name, driver, calendar, offset, dateAt, timeAt, timeAt, timeAt);
  }

  // A backup that reads its date before midnight and its time in the minute after it is named
  // like one made a day earlier, at the start of the day that has just ended.
  lemma MidnightClash(name: string, driver: string, calendar: int -> Date, offset: int,
                      d: int, dateAt: int, timeAt: int, early: int)
    requires Extension(driver).Ok? && IsDate(calendar(d))
    requires Within(dateAt, d, MINUTES_PER_DAY - 1, offset) && Within(timeAt, d + 1, 0, offset)
    requires Within(early, d, 0, offset)
    ensures DayOf(dateAt, offset) == DayOf(early, offset) == d
    ensures NamedAt(name, driver, calendar, dateAt, timeAt, offset)
         == NamedAt(name, driver, calendar, early, early, offset)
  {
    WithinIsSameMinute(dateAt, d, MINUTES_PER_DAY - 1, offset);
    WithinIsSameMinute(timeAt, d + 1, 0, offset);
    WithinIsSameMinute(early, d, 0, offset);
  }
}
