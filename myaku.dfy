/** MYAKU PRIVATE SAUNA (spot-ly): the booking-page address for the coming
    week, and the shaping of the scraped plan calendars into the snapshot.
    Each scraped plan carries its room, its plan type and seven days marked
    available or not; the times a plan offers come from the fixed room table. */
module Myaku {
  import opened Wrappers
  import opened Text
  import opened Sorting
  import opened Calendar
  import opened Snapshot

  // ------------------------------------------------------------- room table

  datatype PlanInfo = PlanInfo(times: seq<string>, isNight: bool)

  datatype RoomInfo = RoomInfo(displayName: string, plans: map<string, PlanInfo>)

  /** Rooms by the name the booking page shows, with their plans by plan type. */
  const ROOM_INFO: map<string, RoomInfo> := map[
    "休 -KYU-" := RoomInfo("休 KYU（90分/定員3名）¥5,500", map[
      "90分プラン（午後）" := PlanInfo(["11:30〜13:00", "13:30〜15:00", "15:30〜17:00", "17:30〜19:00", "19:30〜21:00"], false)]),
    "水 -MIZU-" := RoomInfo("水 MIZU（90分/定員2名）¥5,500", map[
      "ナイトパック" := PlanInfo(["01:00〜08:30"], true),
      "90分プラン（午後）" := PlanInfo(["13:00〜14:30", "15:00〜16:30", "17:00〜18:30", "19:00〜20:30", "21:00〜22:30", "23:00〜00:30"], false),
      "90分プラン（午前）" := PlanInfo(["09:00〜10:30", "11:00〜12:30"], false)]),
    "火 -HI-" := RoomInfo("火 HI（90分/定員4名）¥5,500", map[
      "ナイトパック" := PlanInfo(["00:30〜08:00"], true),
      "90分プラン（午後）" := PlanInfo(["14:30〜16:00", "16:30〜18:00", "18:30〜20:00", "20:30〜22:00", "22:30〜00:00"], false),
      "90分プラン（午前）" := PlanInfo(["08:30〜10:00", "10:30〜12:00", "12:30〜14:00"], false)])
  ]

  // --------------------------------------------------------- booking address

  const BASE_URL := "https://spot-ly.jp/ja/hotels/176"
  const MIDNIGHT := "+00%3A00%3A00"

  /** `formatDate(d)`: the date key followed by an encoded midnight. */
  function Stamp(d: Date): string
    requires Valid(d)
  {
    DateKey(d) + MIDNIGHT
  }

  /** `getUrl()`: check-in today, check-out six days later. */
  function GetUrl(today: Date): string
    requires Valid(today)
  {
    BASE_URL + "?checkinDatetime=" + Stamp(today) + "&checkoutDatetime=" + Stamp(AddDays(today, 6))
  }

  function YearMonthDay(d: Date): (int, nat, nat)
    requires Valid(d)
  {
    (d.year, d.month, d.day)
  }

  /** Reads a stamp back into year, month and day. */
  function ReadStamp(s: string): Option<(int, nat, nat)> {
    if EndsWith(s, MIDNIGHT) then ParseKey(s[..|s| - |MIDNIGHT|]) else None
  }

  lemma StampRoundTrip(d: Date)
    requires Valid(d)
    ensures ReadStamp(Stamp(d)) == Some(YearMonthDay(d))
  {
    var s := Stamp(d);
    assert s[..|s| - |MIDNIGHT|] == DateKey(d);
    KeyRoundTrip(d.year, d.month, d.day);
  }

  /** The address carries two stamps, which read back as today and as the day
      six days later. */
  lemma GetUrlDates(today: Date)
    requires Valid(today)
    ensures Before(today, AddDays(today, 6))
    ensures exists checkIn, checkOut ::
      GetUrl(today) == BASE_URL + "?checkinDatetime=" + checkIn + "&checkoutDatetime=" + checkOut
      && ReadStamp(checkIn) == Some(YearMonthDay(today))
      && ReadStamp(checkOut) == Some(YearMonthDay(AddDays(today, 6)))
  {
    AddDaysIncreasing(today, 0, 6);
    StampRoundTrip(today);
    StampRoundTrip(AddDays(today, 6));
    var checkIn, checkOut := Stamp(today), Stamp(AddDays(today, 6));
    assert GetUrl(today) == BASE_URL + "?checkinDatetime=" + checkIn + "&checkoutDatetime=" + checkOut;
  }

  // ------------------------------------------------------- scraped calendars

  /** One day of a plan's week: its `M/D` label read as two numbers, and
      whether it was marked `◯`. */
  datatype DateCell = DateCell(month: nat, day: nat, available: bool)

  datatype PlanData = PlanData(room: string, planType: string, dates: seq<DateCell>)

  /** The year of an `M/D` label: next year for January while it is December. */
  function CellYear(currentYear: int, currentMonth: int, month: nat): int {
    if month == 1 && currentMonth == 12 then currentYear + 1 else currentYear
  }

  /** The `YYYY-MM-DD` key of a scraped day. */
  function CellKey(cell: DateCell, currentYear: int, currentMonth: int): string {
    KeyOf(CellYear(currentYear, currentMonth, cell.month), cell.month, cell.day)
  }

  /** A scraped day's key reads back as its month and day, in the current year
      unless the month is January while it is December, then in the next. */
  lemma CellKeyRoundTrip(cell: DateCell, currentYear: int, currentMonth: int)
    requires cell.month < 100 && cell.day < 100
    ensures var r := ParseKey(CellKey(cell, currentYear, currentMonth));
      r.Some? && r.value.1 == cell.month && r.value.2 == cell.day
      && (r.value.0 == currentYear + 1 <==> cell.month == 1 && currentMonth == 12)
      && (r.value.0 == currentYear || r.value.0 == currentYear + 1)
  {
    KeyRoundTrip(CellYear(currentYear, currentMonth, cell.month), cell.month, cell.day);
  }

  /** The room's name in the snapshot: a night plan has the first `（90分`
      of the room's display name replaced by `（night`. */
  function DisplayName(room: RoomInfo, plan: PlanInfo): string {
    if plan.isNight then ReplaceFirst(room.displayName, "（90分", "（night") else room.displayName
  }
  /** A day plan keeps the room's name; a night plan has its leftmost
      `（90分` replaced by `（night`, and keeps the name when there is none. */
  lemma DisplayNameSpec(room: RoomInfo, plan: PlanInfo)
    ensures !plan.isNight ==> DisplayName(room, plan) == room.displayName
    ensures plan.isNight && !Contains(room.displayName, "（90分") ==> DisplayName(room, plan) == room.displayName
    ensures plan.isNight && Contains(room.displayName, "（90分") ==> exists i: nat ::
      OccursAt(room.displayName, "（90分", i) && (forall j :: 0 <= j < i ==> !OccursAt(room.displayName, "（90分", j))
      && DisplayName(room, plan) == room.displayName[..i] + "（night" + room.displayName[i + |"（90分"|..]
  {
    ReplaceFirstSpec(room.displayName, "（90分", "（night");
  }


  predicate Known(plan: PlanData) {
    plan.room in ROOM_INFO && plan.planType in ROOM_INFO[plan.room].plans
  }

  // ---------------------------------------------------------- merge rules

  /** One day of one plan: on an available day the plan's times are appended
      to the room's list, skipping those already there; on a full day the room
      only gets an empty list if it has none. */
  function MergeCell(d: Dates, name: string, times: seq<string>, key: string, available: bool): (r: Dates)
    ensures r.Keys == d.Keys + {key}
    ensures HasEntry(r, key, name)
    ensures available ==> Entry(d, key, name) <= Entry(r, key, name)
    ensures available ==> forall t :: t in Entry(r, key, name) <==> t in Entry(d, key, name) || t in times
    ensures available && NoDuplicates(Entry(d, key, name)) ==> NoDuplicates(Entry(r, key, name))
    ensures !available ==> Lookup(r, key, name) == if HasEntry(d, key, name) then Lookup(d, key, name) else Some([])
    ensures forall k, room :: k != key || room != name ==> Lookup(r, k, room) == Lookup(d, k, room)
  {
    if available then PutRoom(d, key, name, PushAllNew(Entry(d, key, name), times)) else FillRoom(d, key, name)
  }

  /** The days of one plan, in order. */
  function MergeCells(d: Dates, name: string, times: seq<string>, cells: seq<DateCell>, currentYear: int, currentMonth: int): Dates
  {
    if cells == [] then d
    else
      var c := cells[|cells| - 1];
      MergeCell(MergeCells(d, name, times, cells[..|cells| - 1], currentYear, currentMonth), name, times,
                CellKey(c, currentYear, currentMonth), c.available)
  }

  /** One scraped plan; a plan whose room or plan type is not in the table
      changes nothing. */
  function MergePlan(d: Dates, plan: PlanData, currentYear: int, currentMonth: int): (r: Dates)
    ensures !Known(plan) ==> r == d
  {
    if !Known(plan) then d
    else
      var room := ROOM_INFO[plan.room];
      var info := room.plans[plan.planType];
      MergeCells(d, DisplayName(room, info), info.times, plan.dates, currentYear, currentMonth)
  }

  /** All scraped plans, in order. */
  function MergePlans(d: Dates, plans: seq<PlanData>, currentYear: int, currentMonth: int): Dates
  {
    if plans == [] then d
    else MergePlan(MergePlans(d, plans[..|plans| - 1], currentYear, currentMonth), plans[|plans| - 1], currentYear, currentMonth)
  }

  function KnownOnly(plans: seq<PlanData>): (r: seq<PlanData>)
    ensures forall i :: 0 <= i < |r| ==> Known(r[i])
  {
    if plans == [] then []
    else KnownOnly(plans[..|plans| - 1]) + (if Known(plans[|plans| - 1]) then [plans[|plans| - 1]] else [])
  }

  /** Plans of unknown rooms or plan types contribute nothing to the snapshot. */
  lemma {:induction false} UnknownPlansIgnored(d: Dates, plans: seq<PlanData>, currentYear: int, currentMonth: int)
    ensures MergePlans(d, plans, currentYear, currentMonth) == MergePlans(d, KnownOnly(plans), currentYear, currentMonth)
  {
    if plans != [] {
      var init := plans[..|plans| - 1];
      var last := plans[|plans| - 1];
      UnknownPlansIgnored(d, init, currentYear, currentMonth);
      if Known(last) {
        var k := KnownOnly(init) + [last];
        assert KnownOnly(plans) == k;
        assert k[..|k| - 1] == KnownOnly(init);
        assert MergePlans(d, k, currentYear, currentMonth) == MergePlan(MergePlans(d, KnownOnly(init), currentYear, currentMonth), last, currentYear, currentMonth);
      } else {
        assert KnownOnly(plans) == KnownOnly(init) + [];
        assert KnownOnly(init) + [] == KnownOnly(init);
      }
    }
  }

  lemma {:induction false} MergeCellsClean(d: Dates, name: string, times: seq<string>, cells: seq<DateCell>, currentYear: int, currentMonth: int)
    requires Clean(d)
    ensures Clean(MergeCells(d, name, times, cells, currentYear, currentMonth))
  {
    if cells != [] {
      var c := cells[|cells| - 1];
      var before := MergeCells(d, name, times, cells[..|cells| - 1], currentYear, currentMonth);
      MergeCellsClean(d, name, times, cells[..|cells| - 1], currentYear, currentMonth);
      var key := CellKey(c, currentYear, currentMonth);
      var after := MergeCell(before, name, times, key, c.available);
      forall k, room | HasEntry(after, k, room) ensures NoDuplicates(Lookup(after, k, room).value) {
        if k == key && room == name {
          assert NoDuplicates(Entry(before, key, name));
        } else {
          assert Lookup(after, k, room) == Lookup(before, k, room);
        }
      }
    }
  }

  /** Appending with the `includes` guard never puts a label into a list twice. */
  lemma {:induction false} MergePlansClean(d: Dates, plans: seq<PlanData>, currentYear: int, currentMonth: int)
    requires Clean(d)
    ensures Clean(MergePlans(d, plans, currentYear, currentMonth))
  {
    if plans != [] {
      var before := MergePlans(d, plans[..|plans| - 1], currentYear, currentMonth);
      MergePlansClean(d, plans[..|plans| - 1], currentYear, currentMonth);
      var plan := plans[|plans| - 1];
      if Known(plan) {
        var room := ROOM_INFO[plan.room];
        var info := room.plans[plan.planType];
        MergeCellsClean(before, DisplayName(room, info), info.times, plan.dates, currentYear, currentMonth);
      }
    }
  }

  // ------------------------------------------------------------ night order

  /** `t.split('〜')[0]` */
  function StartOf(t: string): string {
    match IndexOf(t, "〜")
    case None => t
    case Some(i) => t[..i]
  }

  /** `s.split(':').map(Number)` read as hour and minute; `None` where a part is
      missing or not a number. */
  function ClockOf(s: string): Option<(nat, nat)> {
    match IndexOf(s, ":")
    case None => None
    case Some(i) =>
      var rest := s[i + 1..];
      var minute := match IndexOf(rest, ":") case None => rest case Some(j) => rest[..j];
      if AllDigits(s[..i]) && AllDigits(minute) then Some((ParseDigits(s[..i]), ParseDigits(minute))) else None
  }

  /** The sort key of a slot label: minutes of its start, with hours before 7
      counted as the next day's (`hour + 24`). */
  function NightKey(t: string): int {
    match ClockOf(StartOf(t))
    case None => 0
    case Some((h, m)) => (if h < 7 then h + 24 else h) * 60 + m
  }

  /** The label of a slot that starts at `h:m`. */
  function ClockLabel(h: nat, m: nat, rest: string): string {
    Pad2(h) + ":" + Pad2(m) + "〜" + rest
  }

  lemma {:induction false} Pad2Digits(n: nat)
    requires n < 100
    ensures |Pad2(n)| == 2 && IsDigit(Pad2(n)[0]) && IsDigit(Pad2(n)[1])
  {
    Pad2RoundTrip(n);
  }

  /** The start of a label `HH:MM〜…` is its `HH:MM`. */
  lemma StartOfLabel(h: nat, m: nat, rest: string)
    requires h < 100 && m < 100
    ensures StartOf(ClockLabel(h, m, rest)) == Pad2(h) + ":" + Pad2(m)
  {
    var t := ClockLabel(h, m, rest);
    var start := Pad2(h) + ":" + Pad2(m);
    Pad2Digits(h);
    Pad2Digits(m);
    assert t == start + "〜" + rest;
    assert OccursAt(t, "〜", 5);
    forall j | 0 <= j < 5 ensures !OccursAt(t, "〜", j) {
      assert t[j] == start[j];
      assert IsDigit(start[j]) || start[j] == ':' by {
        if j < 2 {
          assert start[j] == Pad2(h)[j];
        } else if j > 2 {
          assert start[j] == Pad2(m)[j - 3];
        }
      }
      assert t[j..j + 1] != "〜";
    }
    assert IndexOf(t, "〜") == Some(5);
  }

  /** `HH:MM` splits at its colon into the hour and the minute. */
  lemma ClockOfPadded(h: nat, m: nat)
    requires h < 100 && m < 100
    ensures ClockOf(Pad2(h) + ":" + Pad2(m)) == Some((h, m))
  {
    var start := Pad2(h) + ":" + Pad2(m);
    Pad2Digits(h);
    Pad2Digits(m);
    Pad2RoundTrip(h);
    Pad2RoundTrip(m);
    assert OccursAt(start, ":", 2);
    forall j | 0 <= j < 2 ensures !OccursAt(start, ":", j) {
      assert start[j] == Pad2(h)[j] && IsDigit(start[j]);
      assert start[j..j + 1] == [start[j]];
    }
    assert IndexOf(start, ":") == Some(2);
    var minute := start[3..];
    assert minute == Pad2(m);
    forall j | 0 <= j ensures !OccursAt(minute, ":", j) {
      if j + 1 <= |minute| {
        assert IsDigit(minute[j]);
        assert minute[j..j + 1] == [minute[j]];
      }
    }
    assert IndexOf(minute, ":") == None;
    assert start[..2] == Pad2(h);
  }

  /** A label `HH:MM〜…` sorts by its start, read with the night rule. */
  lemma NightKeyOfLabel(h: nat, m: nat, rest: string)
    requires h < 100 && m < 100
    ensures NightKey(ClockLabel(h, m, rest)) == (if h < 7 then h + 24 else h) * 60 + m
  {
    StartOfLabel(h, m, rest);
    ClockOfPadded(h, m);
  }

  /** The night rule at work: a slot starting at 00:30 sorts after one
      starting at 23:00, and one starting at 06:59 after one at 07:00. */
  lemma MidnightSortsLast(rest: string)
    ensures NightKey(ClockLabel(23, 0, rest)) < NightKey(ClockLabel(0, 30, rest))
    ensures NightKey(ClockLabel(7, 0, rest)) < NightKey(ClockLabel(6, 59, rest))
  {
    NightKeyOfLabel(23, 0, rest);
    NightKeyOfLabel(0, 30, rest);
    NightKeyOfLabel(7, 0, rest);
    NightKeyOfLabel(6, 59, rest);
  }

  /** Every room's list of every date, sorted by `NightKey`. */
  function SortAll(d: Dates): (r: Dates)
    ensures r.Keys == d.Keys
    ensures forall k, room :: HasEntry(r, k, room) <==> HasEntry(d, k, room)
    ensures forall k, room :: HasEntry(d, k, room) ==> (
      HasEntry(r, k, room) &&
      var s := Lookup(r, k, room).value;
      multiset(s) == multiset(Lookup(d, k, room).value) && SortedByKey(s, NightKey))
  {
    map k | k in d :: SortRooms(d[k])
  }

  // ------------------------------------------------------------- the method

  /** The `includes`-guarded `push` loop of an available day: the room gets
      an entry if it had none, then each time not yet listed is appended. */
  method MergeTimes(dates: Dates, key: string, name: string, times: seq<string>) returns (r: Dates)
    ensures r == MergeCell(dates, name, times, key, true)
  {
    r := EnsureRoom(dates, key, name);
    assert r == PutRoom(dates, key, name, PushAllNew(Entry(dates, key, name), times[..0])) by {
      PutEntryIsFill(dates, key, name);
      assert times[..0] == [];
    }
    for t := 0 to |times|
      invariant r == PutRoom(dates, key, name, PushAllNew(Entry(dates, key, name), times[..t]))
    {
      var time := times[t];
      ghost var list := PushAllNew(Entry(dates, key, name), times[..t]);
      assert r[key][name] == list;
      if time !in r[key][name] {
        PutTwice(dates, key, name, list, list + [time]);
        r := PutRoom(r, key, name, r[key][name] + [time]);
      }
      assert PushAllNew(Entry(dates, key, name), times[..t + 1]) == PushNew(list, time) by {
        assert times[..t + 1][..t] == times[..t];
      }
    }
    assert times[..|times|] == times;
  }

  /** The day loop of one known plan (lines of `scrape` from the date
      conversion to the end of the day's merge). */
  method MergeDays(dates: Dates, name: string, times: seq<string>, cells: seq<DateCell>, currentYear: int, currentMonth: int)
    returns (r: Dates)
    ensures r == MergeCells(dates, name, times, cells, currentYear, currentMonth)
  {
    r := dates;
    for j := 0 to |cells|
      invariant r == MergeCells(dates, name, times, cells[..j], currentYear, currentMonth)
    {
      var cell := cells[j];
      assert cells[..j + 1][..j] == cells[..j];
      var year := currentYear;
      if cell.month == 1 && currentMonth == 12 {
        year := currentYear + 1;
      }
      var dateStr := YearText(year) + "-" + Pad2(cell.month) + "-" + Pad2(cell.day);
      assert dateStr == CellKey(cell, currentYear, currentMonth);
      if cell.available {
        r := MergeTimes(r, dateStr, name, times);
      } else {
        r := EnsureRoom(r, dateStr, name);
      }
    }
    assert cells[..|cells|] == cells;
  }

  function SortRooms(rooms: Rooms): Rooms {
    map room | room in rooms :: SortByKey(rooms[room], NightKey)
  }

  /** The inner loop of the closing sort: each room's list of one date. */
  method SortDay(rooms: Rooms) returns (r: Rooms)
    ensures r == SortRooms(rooms)
  {
    r := rooms;
    var names := r.Keys;
    while names != {}
      invariant names <= rooms.Keys && r.Keys == rooms.Keys
      invariant forall room :: room in rooms ==>
        r[room] == if room in names then rooms[room] else SortByKey(rooms[room], NightKey)
      decreases names
    {
      var room :| room in names;
      r := r[room := SortByKey(r[room], NightKey)];
      names := names - {room};
    }
  }

  /** The closing sort of `scrape`: every list of every date, in place. */
  method SortLists(dates: Dates) returns (r: Dates)
    ensures r == SortAll(dates)
  {
    r := dates;
    var keys := r.Keys;
    while keys != {}
      invariant keys <= dates.Keys && r.Keys == dates.Keys
      invariant forall k :: k in dates ==> r[k] == if k in keys then dates[k] else SortRooms(dates[k])
      decreases keys
    {
      var k :| k in keys;
      var sorted := SortDay(r[k]);
      r := r[k := sorted];
      keys := keys - {k};
    }
  }

  /** The shaping of `scrape` (everything after the page was read): merge every
      scraped plan day by day into an empty snapshot, then sort every list.
      Every list ends up duplicate-free and in night order. */
  method ShapeResult(plansData: seq<PlanData>, currentYear: int, currentMonth: int) returns (dates: Dates)
    ensures dates == SortAll(MergePlans(map[], plansData, currentYear, currentMonth))
    ensures forall k, room :: HasEntry(dates, k, room) ==>
      NoDuplicates(Lookup(dates, k, room).value) && SortedByKey(Lookup(dates, k, room).value, NightKey)
  {
    dates := map[];
    for i := 0 to |plansData|
      invariant dates == MergePlans(map[], plansData[..i], currentYear, currentMonth)
    {
      var plan := plansData[i];
      assert plansData[..i + 1][..i] == plansData[..i];
      if plan.room !in ROOM_INFO {
        continue;
      }
      var roomInfo := ROOM_INFO[plan.room];
      if plan.planType !in roomInfo.plans {
        continue;
      }
      var planInfo := roomInfo.plans[plan.planType];
      var displayName := roomInfo.displayName;
      if planInfo.isNight {
        displayName := ReplaceFirst(displayName, "（90分", "（night");
      }
      dates := MergeDays(dates, displayName, planInfo.times, plan.dates, currentYear, currentMonth);
    }
    assert plansData[..|plansData|] == plansData;
    ghost var merged := dates;
    MergePlansClean(map[], plansData, currentYear, currentMonth);
    dates := SortLists(dates);
    forall k, room | HasEntry(dates, k, room)
      ensures NoDuplicates(Lookup(dates, k, room).value)
    {
      PermutationNoDuplicates(Lookup(merged, k, room).value, Lookup(dates, k, room).value);
    }
  }
}
