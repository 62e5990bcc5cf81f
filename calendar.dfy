/** Calendar dates as the scrapers compute them with JavaScript's `Date`:
    the proleptic Gregorian calendar, "one day later" (`setDate(getDate() + 1)`),
    the roll-over of `new Date(year, monthIndex, day)` for an out-of-range month
    or day, and the `YYYY-MM-DD` date key every snapshot is grouped by. The
    clock itself is not modelled: "today" is always a parameter. */
module Calendar {
  import opened Wrappers
  import opened Text

  datatype Date = Date(year: int, month: int, day: int)

  predicate IsLeapYear(y: int) {
    y % 4 == 0 && (y % 100 != 0 || y % 400 == 0)
  }

  function DaysInMonth(y: int, m: int): (n: int)
    requires 1 <= m <= 12
    ensures 28 <= n <= 31
    ensures n == 29 <==> m == 2 && IsLeapYear(y)
  {
    if m == 2 then (if IsLeapYear(y) then 29 else 28)
    else if m == 4 || m == 6 || m == 9 || m == 11 then 30
    else 31
  }

  /** A date that exists in the calendar. */
  predicate Valid(d: Date) {
    1 <= d.month <= 12 && 1 <= d.day <= DaysInMonth(d.year, d.month)
  }

  /** Calendar order: `a` is strictly earlier than `b`. */
  predicate Before(a: Date, b: Date) {
    a.year < b.year || (a.year == b.year && (a.month < b.month || (a.month == b.month && a.day < b.day)))
  }

  /** The following day: `d.setDate(d.getDate() + 1)`. */
  function NextDay(d: Date): (r: Date)
    requires Valid(d)
    ensures Valid(r) && Before(d, r)
  {
    if d.day < DaysInMonth(d.year, d.month) then d.(day := d.day + 1)
    else if d.month < 12 then Date(d.year, d.month + 1, 1)
    else Date(d.year + 1, 1, 1)
  }

  /** The preceding day: `d.setDate(d.getDate() - 1)`. */
  function PrevDay(d: Date): (r: Date)
    requires Valid(d)
    ensures Valid(r) && Before(r, d)
  {
    if d.day > 1 then d.(day := d.day - 1)
    else if d.month > 1 then Date(d.year, d.month - 1, DaysInMonth(d.year, d.month - 1))
    else Date(d.year - 1, 12, 31)
  }

  /** The next day is the earliest valid date after `d`: no date lies in between. */
  lemma NextDayIsSuccessor(d: Date, e: Date)
    requires Valid(d) && Valid(e) && Before(d, e)
    ensures NextDay(d) == e || Before(NextDay(d), e)
  {
  }

  /** One day forwards and one day back (in either order) is the identity. */
  lemma NextPrevInverse(d: Date)
    requires Valid(d)
    ensures PrevDay(NextDay(d)) == d
    ensures NextDay(PrevDay(d)) == d
  {
  }

  /** `n` days after `d`. */
  function AddDays(d: Date, n: nat): (r: Date)
    requires Valid(d)
    ensures Valid(r)
  {
    if n == 0 then d else NextDay(AddDays(d, n - 1))
  }

  lemma {:induction false} AddDaysAdd(d: Date, a: nat, b: nat)
    requires Valid(d)
    ensures AddDays(d, a + b) == AddDays(AddDays(d, a), b)
  {
    if b > 0 {
      AddDaysAdd(d, a, b - 1);
    }
  }

  /** Later offsets give strictly later dates. */
  lemma {:induction false} AddDaysIncreasing(d: Date, i: nat, j: nat)
    requires Valid(d) && i < j
    ensures Before(AddDays(d, i), AddDays(d, j))
  {
    if i < j - 1 {
      AddDaysIncreasing(d, i, j - 1);
    }
  }

  /** `new Date(year, month - 1, day)` with JavaScript's roll-over: a month
      outside 1..12 moves into a neighbouring year, day 0 is the last day of
      the previous month, a day past the month's end runs into the next. */
  function MakeDate(year: int, month: int, day: nat): (r: Date)
    ensures Valid(r)
  {
    var y := year + (month - 1) / 12;
    var m := (month - 1) % 12 + 1;
    AddDays(PrevDay(Date(y, m, 1)), day)
  }

  lemma {:induction false} WithinMonth(y: int, m: int, day: nat)
    requires 1 <= m <= 12 && 1 <= day <= DaysInMonth(y, m)
    ensures AddDays(PrevDay(Date(y, m, 1)), day) == Date(y, m, day)
  {
    if day > 1 {
      WithinMonth(y, m, day - 1);
    } else {
      NextPrevInverse(Date(y, m, 1));
    }
  }

  /** On a date that exists, the roll-over changes nothing. */
  lemma MakeDateValid(d: Date)
    requires Valid(d)
    ensures MakeDate(d.year, d.month, d.day) == d
  {
    WithinMonth(d.year, d.month, d.day);
  }

  /** Consecutive day numbers give consecutive dates. */
  lemma MakeDateShift(year: int, month: int, day: nat, i: nat)
    ensures MakeDate(year, month, day + i) == AddDays(MakeDate(year, month, day), i)
  {
    var y := year + (month - 1) / 12;
    var m := (month - 1) % 12 + 1;
    AddDaysAdd(PrevDay(Date(y, m, 1)), day, i);
  }

  // ------------------------------------------------------------- date keys

  /** `${year}` */
  function YearText(y: int): string {
    if y < 0 then "-" + NatToString(-y) else NatToString(y)
  }

  /** `${year}-${String(month).padStart(2, '0')}-${String(day).padStart(2, '0')}` */
  function KeyOf(year: int, month: nat, day: nat): string {
    YearText(year) + "-" + Pad2(month) + "-" + Pad2(day)
  }

  /** The `YYYY-MM-DD` key of a date. */
  function DateKey(d: Date): string
    requires Valid(d)
  {
    KeyOf(d.year, d.month, d.day)
  }

  function ParseYear(t: string): Option<int> {
    if 2 <= |t| && t[0] == '-' && AllDigits(t[1..]) then Some(-(ParseDigits(t[1..]) as int))
    else if 1 <= |t| && AllDigits(t) then Some(ParseDigits(t))
    else None
  }

  /** Reads a key back into year, month and day. */
  function ParseKey(k: string): Option<(int, nat, nat)> {
    if |k| < 7 || k[|k| - 6] != '-' || k[|k| - 3] != '-' then None
    else
      var mt, dt := k[|k| - 5..|k| - 3], k[|k| - 2..];
      if !AllDigits(mt) || !AllDigits(dt) then None
      else match ParseYear(k[..|k| - 6])
        case None => None
        case Some(y) => Some((y, ParseDigits(mt), ParseDigits(dt)))
  }

  /** A year's text reads back as the year. */
  lemma YearTextRoundTrip(year: int)
    ensures ParseYear(YearText(year)) == Some(year)
  {
    var yt := YearText(year);
    if year < 0 {
      ParseNatToString(-year);
      assert yt[1..] == NatToString(-year);
    } else {
      ParseNatToString(year);
    }
  }

  /** A key is cut back into the parts it was assembled from. */
  lemma ParseKeyParts(yt: string, mt: string, dt: string)
    requires yt != [] && |mt| == 2 && |dt| == 2 && AllDigits(mt) && AllDigits(dt)
    ensures var k := yt + "-" + mt + "-" + dt;
      |k| >= 7 && k[|k| - 6] == '-' && k[|k| - 3] == '-'
      && k[..|k| - 6] == yt && k[|k| - 5..|k| - 3] == mt && k[|k| - 2..] == dt
  {
    var k := yt + "-" + mt + "-" + dt;
    assert k[..|k| - 6] == yt;
    assert k[|k| - 5..|k| - 3] == mt;
    assert k[|k| - 2..] == dt;
  }

  /** A key assembled from a year and two-digit month and day texts reads
      back as that year and those numbers. */
  lemma KeyTextRoundTrip(year: int, mt: string, dt: string)
    requires |mt| == 2 && |dt| == 2 && AllDigits(mt) && AllDigits(dt)
    ensures ParseKey(YearText(year) + "-" + mt + "-" + dt) == Some((year, ParseDigits(mt), ParseDigits(dt)))
  {
    var yt := YearText(year);
    YearTextRoundTrip(year);
    ParseKeyParts(yt, mt, dt);
  }

  /** A key reads back as the year, month and day it was made from, so two
      different dates never share a key. */
  lemma KeyRoundTrip(year: int, month: nat, day: nat)
    requires month < 100 && day < 100
    ensures ParseKey(KeyOf(year, month, day)) == Some((year, month, day))
  {
    Pad2RoundTrip(month);
    Pad2RoundTrip(day);
    KeyTextRoundTrip(year, Pad2(month), Pad2(day));
  }

  lemma DateKeyInjective(a: Date, b: Date)
    requires Valid(a) && Valid(b) && DateKey(a) == DateKey(b)
    ensures a == b
  {
    KeyRoundTrip(a.year, a.month, a.day);
    KeyRoundTrip(b.year, b.month, b.day);
  }

  /** The keys of the seven days starting at `today`, as the scrapers' `for (let
      i = 0; i < 7; i++)` loops produce them. */
  function WeekKeys(today: Date): (keys: seq<string>)
    requires Valid(today)
    ensures |keys| == 7
    ensures forall i :: 0 <= i < 7 ==> keys[i] == DateKey(AddDays(today, i))
  {
    seq(7, i requires 0 <= i < 7 => DateKey(AddDays(today, i)))
  }

  /** `new Date(today); d.setDate(d.getDate() + i)`, as a key. */
  method DayKeyFrom(today: Date, i: nat) returns (key: string)
    requires Valid(today) && i < 7
    ensures key == WeekKeys(today)[i]
  {
    key := DateKey(AddDays(today, i));
  }

  /** The seven keys are pairwise different. */
  lemma WeekKeysDistinct(today: Date)
    requires Valid(today)
    ensures forall i, j :: 0 <= i < j < 7 ==> WeekKeys(today)[i] != WeekKeys(today)[j]
  {
    forall i, j | 0 <= i < j < 7 ensures WeekKeys(today)[i] != WeekKeys(today)[j] {
      AddDaysIncreasing(today, i, j);
      if WeekKeys(today)[i] == WeekKeys(today)[j] {
        DateKeyInjective(AddDays(today, i), AddDays(today, j));
      }
    }
  }
}
