/** SAUNA OOO FUKUOKA (gflow): a header table whose cells carry `MM/DD`
    dates and a body table whose rows start with `HH:MM~HH:MM`. A body cell
    is open when it has an availability marker (the `cursor` class or the
    empty-circle icon) and no unavailability marker (the `bg-gray` class or
    the close icon); both markers are inputs here. The year of every date is
    the current year, with no roll-over at the turn of the year. */
module Gflow {
  import opened Wrappers
  import opened Text
  import opened Calendar
  import opened Snapshot
  import opened Grid

  /** The rooms, in the order they are scraped, by their display name. */
  const ROOMS: seq<string> := [
    "サンカク（100分/120分/定員2名）¥4,500-8,500",
    "マル（100分/120分/定員3名）¥5,000-11,500",
    "シカク（120分/定員4名）¥7,000-18,000"
  ]

  lemma RoomsDistinct()
    ensures Distinct(ROOMS)
  {
    assert ROOMS[0][0] != ROOMS[1][0] && ROOMS[0][0] != ROOMS[2][0] && ROOMS[1][0] != ROOMS[2][0];
  }

  /** A body cell: its text and its two markers. */
  datatype GCell = GCell(text: string, available: bool, unavailable: bool)

  /** One room's page: how many `gold-table`s it has, the texts of the header
      table's cells, and the rows of the body table. */
  datatype RoomPage = RoomPage(tableCount: nat, headers: seq<string>, rows: seq<seq<GCell>>)

  // ---------------------------------------------------------- header dates

  /** `MM/DD` starts at index `i` of `t`. */
  predicate DateAt(t: string, i: nat) {
    i + 5 <= |t| && IsDigit(t[i]) && IsDigit(t[i + 1]) && t[i + 2] == '/' && IsDigit(t[i + 3]) && IsDigit(t[i + 4])
  }

  /** Where the leftmost `MM/DD` at or after `from` starts. */
  function FindDate(t: string, from: nat): (r: Option<nat>)
    ensures r.Some? ==> from <= r.value && DateAt(t, r.value)
    ensures r.Some? ==> forall j :: from <= j < r.value ==> !DateAt(t, j)
    ensures r.None? ==> forall j :: from <= j ==> !DateAt(t, j)
    decreases |t| - from
  {
    if |t| < from + 5 then None
    else if DateAt(t, from) then Some(from)
    else FindDate(t, from + 1)
  }

  /** `${year}-MM-DD` from the leftmost `MM/DD` of `t`. */
  function DateKeyIn(year: int, t: string): Option<string> {
    match FindDate(t, 0)
    case None => None
    case Some(i) => Some(YearText(year) + "-" + t[i..i + 2] + "-" + t[i + 3..i + 5])
  }

  /** The date key of a header cell, from its trimmed text. */
  function HeaderDate(year: int, text: string): Option<string> {
    DateKeyIn(year, Trim(text))
  }

  /** A text yields a key exactly when it contains `MM/DD`; the key reads
      back as the given year and the month and day of the leftmost match. */
  lemma DateKeyInSpec(year: int, t: string)
    ensures DateKeyIn(year, t).None? <==> forall i :: !DateAt(t, i)
    ensures DateKeyIn(year, t).Some? ==> exists i: nat ::
      DateAt(t, i) && (forall j :: 0 <= j < i ==> !DateAt(t, j))
      && ParseKey(DateKeyIn(year, t).value) == Some((year, ParseDigits(t[i..i + 2]), ParseDigits(t[i + 3..i + 5])))
  {
    var f := FindDate(t, 0);
    if f.Some? {
      var i := f.value;
      var mt, dt := t[i..i + 2], t[i + 3..i + 5];
      assert AllDigits(mt) && AllDigits(dt);
      var key := YearText(year) + "-" + mt + "-" + dt;
      assert DateKeyIn(year, t) == Some(key);
      KeyTextRoundTrip(year, mt, dt);
      assert DateAt(t, i) && (forall j :: 0 <= j < i ==> !DateAt(t, j))
        && ParseKey(key) == Some((year, ParseDigits(mt), ParseDigits(dt)));
    }
  }

  /** The values `f` finds in `xs`, in order: a loop that pushes
      `f(x)` for each `x` that has one. */
  function Collect<T>(xs: seq<T>, f: T -> Option<string>): (r: seq<string>)
    ensures |r| <= |xs|
  {
    if xs == [] then []
    else
      var n := |xs| - 1;
      var init := Collect(xs[..n], f);
      match f(xs[n])
      case None => init
      case Some(x) => init + [x]
  }

  /** Everything collected was found in some element, and everything found
      in some element was collected. */
  lemma {:induction false} CollectSpec<T>(xs: seq<T>, f: T -> Option<string>)
    ensures forall x :: x in Collect(xs, f) <==> exists j :: 0 <= j < |xs| && f(xs[j]) == Some(x)
  {
    if xs != [] {
      var n := |xs| - 1;
      CollectSpec(xs[..n], f);
      forall x ensures x in Collect(xs, f) <==> exists j :: 0 <= j < |xs| && f(xs[j]) == Some(x) {
        if exists j :: 0 <= j < |xs| && f(xs[j]) == Some(x) {
          var j :| 0 <= j < |xs| && f(xs[j]) == Some(x);
          if j < n {
            assert xs[..n][j] == xs[j];
          }
        }
        if x in Collect(xs[..n], f) {
          var j :| 0 <= j < n && f(xs[..n][j]) == Some(x);
          assert xs[..n][j] == xs[j];
        }
      }
    }
  }

  /** Collecting is done element by element, in order: what two runs of
      elements give is concatenated, and one element gives its own value or
      nothing. */
  lemma {:induction false} CollectOrder<T>(xs: seq<T>, ys: seq<T>, f: T -> Option<string>)
    ensures Collect(xs + ys, f) == Collect(xs, f) + Collect(ys, f)
    ensures forall x :: Collect([x], f) == if f(x).Some? then [f(x).value] else []
  {
    forall x ensures Collect([x], f) == if f(x).Some? then [f(x).value] else [] {
      assert [x][..0] == [];
    }
    if ys == [] {
      assert xs + ys == xs;
    } else {
      var n := |ys| - 1;
      assert (xs + ys)[..|xs + ys| - 1] == xs + ys[..n];
      assert (xs + ys)[|xs + ys| - 1] == ys[n];
      CollectOrder(xs, ys[..n], f);
      match f(ys[n])
      case None =>
      case Some(v) =>
        AppendAssoc(Collect(xs, f), Collect(ys[..n], f), [v]);
    }
  }

  function HeaderDateOf(year: int): string -> Option<string> {
    text => HeaderDate(year, text)
  }

  /** The keys of the header cells that have one, in column order. */
  function HeaderDateList(year: int, headers: seq<string>): seq<string> {
    Collect(headers, HeaderDateOf(year))
  }

  /** Every key in the list comes from a header cell, and every header cell
      that has a key contributes it. */
  lemma HeaderDateListSpec(year: int, headers: seq<string>)
    ensures forall x :: x in HeaderDateList(year, headers) <==>
      exists j :: 0 <= j < |headers| && HeaderDate(year, headers[j]) == Some(x)
  {
    CollectSpec(headers, HeaderDateOf(year));
  }

  /** The date list follows the header cells in column order: the keys of
      two runs of headers are concatenated, and one header gives its own key
      or nothing. */
  lemma HeaderDateListOrder(year: int, left: seq<string>, right: seq<string>)
    ensures HeaderDateList(year, left + right) == HeaderDateList(year, left) + HeaderDateList(year, right)
    ensures forall h :: HeaderDateList(year, [h]) == if HeaderDate(year, h).Some? then [HeaderDate(year, h).value] else []
  {
    CollectOrder(left, right, HeaderDateOf(year));
  }

  /** `headerCells.forEach(th => { ... if (match) dates.push(...) })` */
  method HeaderDates(year: int, headers: seq<string>) returns (dates: seq<string>)
    ensures dates == HeaderDateList(year, headers)
  {
    dates := [];
    for j := 0 to |headers|
      invariant dates == HeaderDateList(year, headers[..j])
    {
      assert headers[..j + 1][..j] == headers[..j];
      var date := HeaderDateOf(year)(headers[j]);
      if date.Some? {
        dates := dates + [date.value];
      }
    }
    assert headers[..|headers|] == headers;
  }

  // ------------------------------------------------------------ slot labels

  /** `HH:MM~HH:MM` starts at index `i` of `t`. */
  predicate RangeAt(t: string, i: nat) {
    i + 11 <= |t|
    && IsDigit(t[i]) && IsDigit(t[i + 1]) && t[i + 2] == ':' && IsDigit(t[i + 3]) && IsDigit(t[i + 4])
    && t[i + 5] == '~'
    && IsDigit(t[i + 6]) && IsDigit(t[i + 7]) && t[i + 8] == ':' && IsDigit(t[i + 9]) && IsDigit(t[i + 10])
  }

  /** Where the leftmost `HH:MM~HH:MM` at or after `from` starts. */
  function FindRange(t: string, from: nat): (r: Option<nat>)
    ensures r.Some? ==> from <= r.value && RangeAt(t, r.value)
    ensures r.Some? ==> forall j :: from <= j < r.value ==> !RangeAt(t, j)
    ensures r.None? ==> forall j :: from <= j ==> !RangeAt(t, j)
    decreases |t| - from
  {
    if |t| < from + 11 then None
    else if RangeAt(t, from) then Some(from)
    else FindRange(t, from + 1)
  }

  /** The slot of a row: the two times of the leftmost `HH:MM~HH:MM` in its
      first cell's (untrimmed) text, joined by `〜`. */
  function RangeLabel(c: GCell): Option<string> {
    match FindRange(c.text, 0)
    case None => None
    case Some(i) => Some(c.text[i..i + 5] + "〜" + c.text[i + 6..i + 11])
  }

  /** A first cell yields a slot exactly when it contains `HH:MM~HH:MM`; the
      slot is the leftmost match with its `~` turned into `〜`. */
  lemma RangeLabelSpec(c: GCell)
    ensures RangeLabel(c).None? <==> forall i :: !RangeAt(c.text, i)
    ensures RangeLabel(c).Some? ==> exists i: nat ::
      RangeAt(c.text, i) && (forall j :: 0 <= j < i ==> !RangeAt(c.text, j))
      && var l := RangeLabel(c).value;
      |l| == 11 && l[5] == '〜' && l[..5] == c.text[i..i + 5] && l[6..] == c.text[i + 6..i + 11]
  {
    var f := FindRange(c.text, 0);
    if f.Some? {
      var i := f.value;
      var l := RangeLabel(c).value;
      assert l[..5] == c.text[i..i + 5] && l[6..] == c.text[i + 6..i + 11];
    }
  }

  /** `isAvailable && !isUnavailable` */
  predicate Open(c: GCell) {
    c.available && !c.unavailable
  }

  // ----------------------------------------------------------- table data

  /** What the in-page extraction returns for a room. */
  function TableDataOf(page: RoomPage, year: int): Table {
    if page.tableCount < 2 then map[]
    else
      var dates := HeaderDateList(year, page.headers);
      if dates == [] then map[] else TableOf(page.rows, RangeLabel, Open, dates)
  }

  /** The extraction: no data with fewer than two tables or no header date;
      otherwise a slot is listed on a date exactly when a row with at least
      two cells and a time range in its first cell has an open cell in that
      date's column, and no list holds a slot twice. */
  lemma TableDataSpec(page: RoomPage, year: int)
    ensures var data := TableDataOf(page, year);
      var dates := HeaderDateList(year, page.headers);
      WellFormed(data)
      && (page.tableCount < 2 || dates == [] ==> data == map[])
      && (page.tableCount >= 2 ==>
        forall k, t :: Listed(data, k, t) <==>
          exists r, i :: 0 <= r < |page.rows| && SlotAt(page.rows[r], RangeLabel, Open, dates, i, k, t))
  {
    TableOfSpec(page.rows, RangeLabel, Open, HeaderDateList(year, page.headers));
  }

  /** The in-page extraction, loops and all. A date string is never empty,
      so the loop's `if (!dateStr) continue` never skips a column. */
  method TableData(page: RoomPage, year: int) returns (data: Table)
    ensures data == TableDataOf(page, year)
  {
    if page.tableCount < 2 {
      return map[];
    }
    var dates := HeaderDates(year, page.headers);
    if |dates| == 0 {
      return map[];
    }
    data := ReadGrid(page.rows, RangeLabel, Open, dates);
  }

  // ------------------------------------------------------------- the scrape

  /** The extraction's result for each page, in room order. */
  function Tables(pages: seq<RoomPage>, year: int): (t: seq<Table>)
    ensures |t| == |pages| && forall i :: 0 <= i < |pages| ==> t[i] == TableDataOf(pages[i], year)
  {
    seq(|pages|, i requires 0 <= i < |pages| => TableDataOf(pages[i], year))
  }

  /** The room loop over the given rooms, one page each. */
  method ScrapeRooms(rooms: seq<string>, pages: seq<RoomPage>, year: int, today: Date) returns (dates: Dates)
    requires |pages| == |rooms| && Valid(today)
    ensures dates == FillThenOverwrite(map[], rooms[..|rooms|], Tables(pages, year)[..|rooms|], WeekKeys(today))
  {
    ghost var keys := WeekKeys(today);
    ghost var tables := Tables(pages, year);
    dates := map[];
    for j := 0 to |rooms|
      invariant dates == FillThenOverwrite(map[], rooms[..j], tables[..j], keys)
    {
      var data := TableData(pages[j], year);
      FillThenOverwriteStep(map[], rooms, tables, keys, j);
      dates := FillWeek(dates, today, rooms[j]);
      dates := OverwriteRoom(dates, data, rooms[j]);
    }
  }

  /** `scrape`: for each room, every day of the week from today first gets
      `[]` where the room has nothing, then its sorted table data is written
      over the snapshot. */
  method Scrape(pages: seq<RoomPage>, year: int, today: Date) returns (dates: Dates)
    requires |pages| == |ROOMS| && Valid(today)
    ensures forall i, k :: 0 <= i < |ROOMS| ==>
      Lookup(dates, k, ROOMS[i]) == RoomEntry(map[], TableDataOf(pages[i], year), WeekKeys(today), k, ROOMS[i])
    ensures forall i, j :: 0 <= i < |ROOMS| && 0 <= j < 7 ==> HasEntry(dates, WeekKeys(today)[j], ROOMS[i])
    ensures forall k, room :: room !in ROOMS ==> Lookup(dates, k, room) == None
  {
    dates := ScrapeRooms(ROOMS, pages, year, today);
    RoomsDistinct();
    ScrapedRoomsFillFirst(dates, ROOMS, Tables(pages, year), WeekKeys(today));
  }
}
