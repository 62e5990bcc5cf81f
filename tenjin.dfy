/** テンジンサウナ (select-type.com): a weekly calendar per room. The week
    shown is read from the page's `M/D～ M/D` range, each row of the calendar
    table names a start time, and a cell is open when it shows `●` or holds an
    element marked ok. Each slot lasts 90 minutes. The page text, the table
    cells and the clock are inputs here. */
module Tenjin {
  import opened Wrappers
  import opened Text
  import opened Calendar
  import opened Snapshot
  import opened Grid

  /** The rooms, in the order they are scraped, by their display name. */
  const ROOMS: seq<string> := [
    "Standard（60-180分/定員2名）¥2,090-6,270",
    "Deluxe（60-180分/定員4名）¥3,135-9,405"
  ]

  lemma RoomsDistinct()
    ensures Distinct(ROOMS)
  {
    assert ROOMS[0][0] != ROOMS[1][0];
  }

  /** A table cell: its text, and whether it holds an element marked as open. */
  datatype Cell = Cell(text: string, okMarker: bool)

  /** One room's page: the start month and day of the week range, `None` when
      the page text has no range, and the rows of the calendar table. */
  datatype RoomPage = RoomPage(weekStart: Option<(nat, nat)>, rows: seq<seq<Cell>>)

  // ------------------------------------------------------------ week dates

  /** Whether the week's keys are forced into next year: the week starts in
      January while it is still December. */
  predicate NextYear(currentMonth: int, startMonth: nat) {
    startMonth == 1 && currentMonth == 12
  }

  /** The key of day `i` of the week: `new Date(year, startMonth - 1,
      startDay + i)`, with the year replaced by next year when forced. */
  function WeekDateKey(year: int, currentMonth: int, startMonth: nat, startDay: nat, i: nat): string {
    var d := MakeDate(year, startMonth, startDay + i);
    KeyOf(if NextYear(currentMonth, startMonth) then year + 1 else d.year, d.month, d.day)
  }

  function WeekDateKeys(year: int, currentMonth: int, startMonth: nat, startDay: nat): (keys: seq<string>)
    ensures |keys| == 7
  {
    seq(7, i requires 0 <= i < 7 => WeekDateKey(year, currentMonth, startMonth, startDay, i))
  }

  /** The seven keys are consecutive calendar days from the (rolled-over)
      start date, and carry that day's year unless forced into next year. */
  lemma WeekDatesConsecutive(year: int, currentMonth: int, startMonth: nat, startDay: nat)
    ensures var start := MakeDate(year, startMonth, startDay);
      var keys := WeekDateKeys(year, currentMonth, startMonth, startDay);
      forall i :: 0 <= i < 7 ==>
        var d := AddDays(start, i);
        ParseKey(keys[i]) == Some((if NextYear(currentMonth, startMonth) then year + 1 else d.year, d.month, d.day))
  {
    var start := MakeDate(year, startMonth, startDay);
    forall i | 0 <= i < 7
      ensures var d := AddDays(start, i);
        ParseKey(WeekDateKeys(year, currentMonth, startMonth, startDay)[i])
          == Some((if NextYear(currentMonth, startMonth) then year + 1 else d.year, d.month, d.day))
    {
      MakeDateShift(year, startMonth, startDay, i);
      var d := MakeDate(year, startMonth, startDay + i);
      KeyRoundTrip(if NextYear(currentMonth, startMonth) then year + 1 else d.year, d.month, d.day);
    }
  }

  /** One day's key: `new Date(year, startMonth - 1, startDay + i)`, its year
      replaced by next year when the week is forced into it. */
  method DayKey(year: int, currentMonth: int, startMonth: nat, startDay: nat, i: nat) returns (key: string)
    ensures key == WeekDateKey(year, currentMonth, startMonth, startDay, i)
  {
    var d := MakeDate(year, startMonth, startDay + i);
    var y := d.year;
    if startMonth == 1 && currentMonth == 12 {
      y := year + 1;
    }
    key := KeyOf(y, d.month, d.day);
  }

  /** The loop that pushes the seven keys. */
  method WeekDates(year: int, currentMonth: int, startMonth: nat, startDay: nat) returns (dates: seq<string>)
    ensures dates == WeekDateKeys(year, currentMonth, startMonth, startDay)
  {
    ghost var keys := WeekDateKeys(year, currentMonth, startMonth, startDay);
    dates := [];
    for i := 0 to 7
      invariant dates == keys[..i]
    {
      var key := DayKey(year, currentMonth, startMonth, startDay, i);
      PrefixStep(keys, i, key);
      dates := dates + [key];
    }
    assert keys[..7] == keys;
  }

  // ------------------------------------------------------------ slot labels

  /** `H:MM` or `HH:MM`, and nothing else. */
  predicate IsClockText(t: string) {
    (|t| == 4 || |t| == 5) && AllDigits(t[..|t| - 3]) && t[|t| - 3] == ':' && AllDigits(t[|t| - 2..])
  }

  /** The end of a 90-minute slot starting at `h:m`, as `HH:MM`. */
  function EndTime(h: nat, m: nat): string {
    var e := h * 60 + m + 90;
    Pad2(e / 60 % 24) + ":" + Pad2(e % 60)
  }

  lemma ClockArithmetic(e: nat)
    ensures e / 60 % 24 * 60 + e % 60 == e % 1440
  {
    var q, r := e / 60, e % 60;
    assert e == 60 * q + r;
    var p, s := q / 24, q % 24;
    assert q == 24 * p + s;
    assert e == 1440 * p + (60 * s + r);
    assert 0 <= 60 * s + r < 1440;
  }

  /** The end label reads back as an hour below 24 and a minute below 60 that
      together are the start plus 90 minutes, modulo one day. */
  lemma EndTimeSpec(h: nat, m: nat)
    ensures var t := EndTime(h, m);
      |t| == 5 && t[2] == ':' && AllDigits(t[..2]) && AllDigits(t[3..])
      && ParseDigits(t[..2]) < 24 && ParseDigits(t[3..]) < 60
      && ParseDigits(t[..2]) * 60 + ParseDigits(t[3..]) == (h * 60 + m + 90) % 1440
  {
    var e := h * 60 + m + 90;
    var t := EndTime(h, m);
    Pad2RoundTrip(e / 60 % 24);
    Pad2RoundTrip(e % 60);
    assert t[..2] == Pad2(e / 60 % 24);
    assert t[3..] == Pad2(e % 60);
    ClockArithmetic(e);
  }

  /** The slot of a row: its trimmed first cell as matched, `〜`, and the end
      time; `None` when the first cell is not a time. */
  function SlotLabel(c: Cell): Option<string> {
    var t := Trim(c.text);
    if IsClockText(t) then Some(t + "〜" + EndTime(ParseDigits(t[..|t| - 3]), ParseDigits(t[|t| - 2..])))
    else None
  }
  /** A row has a slot exactly when its trimmed first cell is a clock text;
      the slot is that text, `〜`, and an `HH:MM` end 90 minutes later,
      modulo one day. */
  lemma SlotLabelSpec(c: Cell)
    ensures SlotLabel(c).None? <==> !IsClockText(Trim(c.text))
    ensures SlotLabel(c).Some? ==> ClockLabel(Trim(c.text), SlotLabel(c).value)
  {
    var t := Trim(c.text);
    if IsClockText(t) {
      ClockLabelOf(t);
    }
  }

  /** `l` is clock text `t`, `〜`, and an `HH:MM` end 90 minutes after `t`,
      modulo one day. */
  predicate ClockLabel(t: string, l: string)
    requires IsClockText(t)
  {
    |l| == |t| + 6 && l[..|t|] == t && l[|t|] == '〜' && l[|t| + 3] == ':'
    && AllDigits(l[|t| + 1..|t| + 3]) && AllDigits(l[|t| + 4..])
    && ParseDigits(l[|t| + 1..|t| + 3]) * 60 + ParseDigits(l[|t| + 4..])
       == (ParseDigits(t[..|t| - 3]) * 60 + ParseDigits(t[|t| - 2..]) + 90) % 1440
  }

  lemma ClockLabelOf(t: string)
    requires IsClockText(t)
    ensures ClockLabel(t, t + "〜" + EndTime(ParseDigits(t[..|t| - 3]), ParseDigits(t[|t| - 2..])))
  {
    var h, m := ParseDigits(t[..|t| - 3]), ParseDigits(t[|t| - 2..]);
    EndTimeSpec(h, m);
    LabelParts(t, EndTime(h, m));
  }

  /** Where the parts of `t + "〜" + e` sit. */
  lemma LabelParts(t: string, e: string)
    requires |e| == 5
    ensures var l := t + "〜" + e;
      |l| == |t| + 6 && l[..|t|] == t && l[|t|] == '〜' && l[|t| + 3] == e[2]
      && l[|t| + 1..|t| + 3] == e[..2] && l[|t| + 4..] == e[3..]
  {
    var l := t + "〜" + e;
    assert l[|t| + 1..] == e;
  }



  /** A cell is open when its trimmed text contains `●` or it holds an
      element marked ok. */
  predicate Available(c: Cell) {
    Contains(Trim(c.text), "●") || c.okMarker
  }

  // ------------------------------------------------------- calendar data

  /** What the in-page extraction returns for a room. */
  function CalendarOf(page: RoomPage, year: int, currentMonth: int): Table {
    match page.weekStart
    case None => map[]
    case Some((startMonth, startDay)) =>
      TableOf(page.rows, SlotLabel, Available, WeekDateKeys(year, currentMonth, startMonth, startDay))
  }

  /** The extraction: no data without a week range; otherwise a slot is
      listed on a date exactly when a row with at least two cells and a time
      in its first cell has an open cell in that date's column, which is
      never past the seventh, and no list holds a slot twice. */
  lemma CalendarSpec(page: RoomPage, year: int, currentMonth: int)
    ensures var data := CalendarOf(page, year, currentMonth);
      WellFormed(data)
      && (page.weekStart.None? ==> data == map[])
      && (page.weekStart.Some? ==>
        var keys := WeekDateKeys(year, currentMonth, page.weekStart.value.0, page.weekStart.value.1);
        forall k, t :: Listed(data, k, t) <==>
          exists r, i :: 0 <= r < |page.rows| && SlotAt(page.rows[r], SlotLabel, Available, keys, i, k, t))
  {
    if page.weekStart.Some? {
      var keys := WeekDateKeys(year, currentMonth, page.weekStart.value.0, page.weekStart.value.1);
      assert CalendarOf(page, year, currentMonth) == TableOf(page.rows, SlotLabel, Available, keys);
      TableOfSpec(page.rows, SlotLabel, Available, keys);
    }
  }

  /** The in-page extraction, loops and all. */
  method CalendarData(page: RoomPage, year: int, currentMonth: int) returns (data: Table)
    ensures data == CalendarOf(page, year, currentMonth)
  {
    if page.weekStart.None? {
      return map[];
    }
    var (startMonth, startDay) := page.weekStart.value;
    var dates := WeekDates(year, currentMonth, startMonth, startDay);
    data := ReadGrid(page.rows, SlotLabel, Available, dates);
  }

  // ------------------------------------------------------------- the scrape

  /** The extraction's result for each page, in room order. */
  function Tables(pages: seq<RoomPage>, year: int, currentMonth: int): (t: seq<Table>)
    ensures |t| == |pages| && forall i :: 0 <= i < |pages| ==> t[i] == CalendarOf(pages[i], year, currentMonth)
  {
    seq(|pages|, i requires 0 <= i < |pages| => CalendarOf(pages[i], year, currentMonth))
  }

  /** The room loop over the given rooms, one page each. */
  method ScrapeRooms(rooms: seq<string>, pages: seq<RoomPage>, year: int, currentMonth: int, today: Date) returns (dates: Dates)
    requires |pages| == |rooms| && Valid(today)
    ensures dates == OverwriteThenFill(map[], rooms[..|rooms|], Tables(pages, year, currentMonth)[..|rooms|], WeekKeys(today))
  {
    ghost var keys := WeekKeys(today);
    ghost var tables := Tables(pages, year, currentMonth);
    dates := map[];
    for j := 0 to |rooms|
      invariant dates == OverwriteThenFill(map[], rooms[..j], tables[..j], keys)
    {
      var data := CalendarData(pages[j], year, currentMonth);
      OverwriteThenFillStep(map[], rooms, tables, keys, j);
      dates := OverwriteRoom(dates, data, rooms[j]);
      dates := FillWeek(dates, today, rooms[j]);
    }
  }

  /** `scrape`: for each room, its sorted calendar data is written over the
      snapshot, then every day of the week from today gets `[]` where the room
      has nothing. */
  method Scrape(pages: seq<RoomPage>, year: int, currentMonth: int, today: Date) returns (dates: Dates)
    requires |pages| == |ROOMS| && Valid(today)
    ensures forall i, k :: 0 <= i < |ROOMS| ==>
      Lookup(dates, k, ROOMS[i]) == RoomEntry(map[], CalendarOf(pages[i], year, currentMonth), WeekKeys(today), k, ROOMS[i])
    ensures forall i, j :: 0 <= i < |ROOMS| && 0 <= j < 7 ==> HasEntry(dates, WeekKeys(today)[j], ROOMS[i])
    ensures forall k, room :: room !in ROOMS ==> Lookup(dates, k, room) == None
  {
    dates := ScrapeRooms(ROOMS, pages, year, currentMonth, today);
    RoomsDistinct();
    ScrapedRooms(dates, ROOMS, Tables(pages, year, currentMonth), WeekKeys(today));
  }
}
