# Fukuoka sauna checker — the availability core in Dafny

The model covers the part of the Fukuoka private-sauna availability checker
that does the work:

- **The site scrapers.** They turn what a booking page shows into an
  availability snapshot. A snapshot (`Dates`) maps a date key `YYYY-MM-DD` to
  a map from room display name to that room's open slot labels.
  - テンジンサウナ (`Tenjin`) reads a weekly calendar table per room.
  - SAUNA OOO FUKUOKA (`Gflow`) reads a reservation grid per room.
  - 脈 -MYAKU PRIVATE SAUNA- (`Myaku`) merges per-plan date cells into per-room lists and sorts them
    night-aware.
  - サウナヨーガン福岡天神 (`Yogan`) reads one day at a time behind a Cloudflare challenge,
    whose solved cookies are cached.
- **The price table and its two operations.** The price lookup by room name
  and the plain-text price sheet (`Pricing`).
- **The Chatwork notifier.** Its configuration gate, the message bodies of
  every notification kind, and the daily summary (`Notifier`).
- **The daily health check.** It classifies each served facility, collects
  errors and warnings, builds the report and decides the exit status
  (`DailyCheck`).

Shared modules:

- `Text`: decimal text, zero padding, thousands grouping, trimming, substring
  search, JavaScript's default string order, and joining and splitting lines.
- `Calendar`: proleptic Gregorian dates, `new Date(y, m - 1, d)` roll-over and
  date keys.
- `Sorting`: stable insertion sorts, by an integer key and by string order.
- `Snapshot`: snapshot updates. These are "fill with `[]`", "write a room's
  sorted list" and "append if absent". The module also proves that the two
  write orders the scrapers use give the same snapshot.
- `Grid`: reads a table of rows of cells into date → slot lists. Tenjin and
  Gflow share it.
- `Wrappers`: `Option`.

Browser automation, the network and the clock do not appear in the model.
What a page shows is an input value: rows of cells, header texts, the
`plansData` records, the page title and each day's slot texts. The same holds
for the solver's answer, the HTTP response, the environment variables, today's
date and the formatted timestamp.

Three behaviours of the code are kept as written:

- **Warnings.** The warning branch of scripts/daily-check.js:117 never runs,
  so a facility with rooms but no free slot is reported `ok` (see Findings).
- **脈 dates.** The 脈 scraper lists only the dates that appear in its plan
  cells; it does not add `[]` entries for the other days of the week.
- **SAUNA OOO year.** The SAUNA OOO scraper puts the current year on every
  header date, with no roll-over at the turn of the year.

## Model

| member | source | states |
|---|---|---|
| Calendar.DateKey | src/sites/gflow.js:143 | specified by KeyRoundTrip and DateKeyInjective: the `YYYY-MM-DD` key of a date, which reads back as it |
| Calendar.DaysInMonth | src/sites/tenjin.js:81 | a month has 28 to 31 days, and 29 exactly for February of a leap year |
| Calendar.NextDay | src/sites/tenjin.js:143-145 | the next day of a valid date is a valid, later date |
| Calendar.PrevDay | src/sites/tenjin.js:81 | the previous day of a valid date is a valid, earlier date |
| Calendar.NextDayIsSuccessor | src/sites/tenjin.js:143-145 | no valid date lies strictly between a date and its next day |
| Calendar.NextPrevInverse | src/sites/tenjin.js:81 | next day and previous day undo each other |
| Calendar.AddDays | src/sites/tenjin.js:143-145 | adding days to a valid date gives a valid date |
| Calendar.AddDaysAdd | src/sites/tenjin.js:143-145 | adding a then b days is adding a + b days |
| Calendar.AddDaysIncreasing | src/sites/tenjin.js:142-146 | the days of the week from today are strictly increasing |
| Calendar.MakeDate | src/sites/tenjin.js:81 | `new Date(y, m - 1, d)` with any day number gives a valid date |
| Calendar.WithinMonth | src/sites/tenjin.js:81 | a day number inside the month is that very day |
| Calendar.MakeDateValid | src/sites/tenjin.js:81 | building an already valid date gives it back |
| Calendar.MakeDateShift | src/sites/tenjin.js:81 | day number d + i is i days after day number d, across month and year ends |
| Calendar.YearTextRoundTrip | src/sites/tenjin.js:87 | the year text reads back as the year |
| Calendar.KeyTextRoundTrip | src/sites/gflow.js:86 | a key built from a year and two two-digit texts reads back as those numbers |
| Calendar.KeyRoundTrip | src/sites/myaku.js:119 | a `YYYY-MM-DD` key reads back as its year, month and day |
| Calendar.DateKeyInjective | src/sites/tenjin.js:146 | different valid dates have different keys |
| Calendar.WeekKeys | src/sites/gflow.js:139-145 | the week is seven keys, key i being today plus i days |
| Calendar.DayKeyFrom | src/sites/tenjin.js:143-146 | the loop's key for day i is the week's key i |
| Calendar.WeekKeysDistinct | src/sites/tenjin.js:142-146 | the seven keys of the week are pairwise different |
| Text.NatToString | src/notifier.js:120 | the decimal text of a number is non-empty and all digits |
| Text.ParseNatToString | src/notifier.js:120 | the decimal text reads back as the number |
| Text.NatToStringInjective | src/notifier.js:120 | different numbers have different decimal texts |
| Text.ParseLeadingZero | src/sites/tenjin.js:87 | a leading zero does not change the number read |
| Text.Pad2 | src/sites/tenjin.js:87 | the padded text is all digits |
| Text.Pad2RoundTrip | src/sites/tenjin.js:87 | a number below 100 pads to two digits, and the padding reads back as the number |
| Text.Pad3 | src/pricing.js:149 | a group below 1000 pads to three digits |
| Text.Grouped | src/pricing.js:149 | the grouped text is non-empty and has only digits and commas |
| Text.GroupedDigits | src/pricing.js:149 | removing the commas of the grouped text gives the plain decimal text |
| Text.Without | src/pricing.js:149 | removing a character leaves no occurrence of it |
| Text.WithoutAppend | src/pricing.js:149 | removing a character distributes over concatenation |
| Text.WithoutNoOccurrence | src/pricing.js:149 | removing an absent character changes nothing |
| Text.NatToStringThousands | src/pricing.js:149 | the decimal text of n ≥ 1000 is that of n / 1000 followed by the padded last three digits |
| Text.IndexOfFrom | src/sites/myaku.js:150 | the result is the leftmost occurrence at or after the start, or there is none |
| Text.ContainsAt | src/sites/tenjin.js:119 | an occurrence at some index means the text contains the pattern |
| Text.ReplaceFirstSpec | src/sites/myaku.js:108 | without the pattern the text is unchanged; otherwise only its leftmost occurrence is replaced |
| Text.TrimStart | src/sites/tenjin.js:99 | the result is a suffix starting with no space, and only spaces were dropped |
| Text.TrimEnd | src/sites/tenjin.js:99 | the result is a prefix ending with no space, and only spaces were dropped |
| Text.Trim | src/sites/tenjin.js:99 | the result is a slice with no space at either end, and only spaces were dropped around it |
| Text.LexLessIrreflexive | src/sites/gflow.js:158 | the default string order never puts a text before itself |
| Text.LexLessTotal | src/sites/gflow.js:158 | any two different texts are ordered one way |
| Text.LexLessTransitive | src/sites/gflow.js:158 | the default string order is transitive |
| Text.LexLessAsymmetric | src/sites/gflow.js:158 | the default string order is asymmetric |
| Text.JoinLinesAppend | src/notifier.js:96-106 | joining two groups of lines is joining each and concatenating |
| Text.JoinLinesSnoc | src/notifier.js:96-106 | one more line adds the line and a line break |
| Text.Bulleted | src/notifier.js:102 | one bullet line per item, in order, each `・` and the item |
| Text.AppendBullets | scripts/daily-check.js:166-168 | the appending loop adds exactly the bulleted lines |
| Text.LineEnd | src/notifier.js:96-106 | the index is the first line break, or the end of the text |
| Text.LineEndAt | src/notifier.js:96-106 | the first line break found is the one at the given index |
| Text.SplitLinesAt | src/notifier.js:96-106 | splitting at the first line break gives the first line and the lines of the rest |
| Text.SplitLinesAppend | src/notifier.js:96-106 | a text ending in a line break splits apart from what follows it |
| Text.OneLine | src/notifier.js:96-106 | a non-empty text without a line break is one line |
| Text.NoNewlineConcat | src/notifier.js:96-106 | two texts without a line break concatenate to one |
| Text.SplitJoinLines | src/notifier.js:96-106 | lines without line breaks, once joined, split back into the same lines |
| Text.BulletsNoNewlines | src/notifier.js:102 | bulleting items without line breaks adds none |
| Text.JoinLinesEndsLine | src/notifier.js:96-106 | joined lines end in a line break |
| Text.JoinThenLast | src/notifier.js:96-106 | joined lines and a last line split back into those lines and the last |
| Text.LinesThenLast | src/notifier.js:96-106 | a head, joined lines and a last line split into the head's lines, the lines and the last |
| Text.NoNewlinesAppend | src/notifier.js:96-106 | two groups of single lines together are single lines |
| Sorting.InsertByKey | src/sites/myaku.js:147-160 | inserting keeps every element and adds the new one |
| Sorting.InsertByKeySorted | src/sites/myaku.js:147-160 | inserting into a key-sorted list keeps it key-sorted |
| Sorting.ConsSorted | src/sites/myaku.js:147-160 | an element no larger than the rest, in front of a sorted list, keeps it sorted |
| Sorting.SortByKey | src/sites/myaku.js:147-160 | the sort by an integer key is a permutation that is sorted by that key |
| Sorting.InsertByKeyStable | src/sites/yogan.js:187-191 | inserting into a key-sorted list puts the new element after every element with the same key |
| Sorting.SortByKeyStable | src/sites/yogan.js:187-191 | the sort is stable: for every key, the elements with that key come out in their input order |
| Sorting.SortedStableUnique | src/sites/yogan.js:187-191 | two key-sorted lists with the same elements of each key in the same order are equal, so a stable sort has one result |
| Sorting.InsertLex | src/sites/gflow.js:158 | inserting keeps every element and adds the new one |
| Sorting.InsertLexSorted | src/sites/gflow.js:158 | inserting into a list in string order keeps it in string order |
| Sorting.SortLex | src/sites/gflow.js:158 | the default sort is a permutation in string order |
| Snapshot.FillAll | src/sites/gflow.js:139-151 | specified by FillAllSpec, FillAllStep and FillWeek |
| Snapshot.Overwrite | src/sites/gflow.js:153-159 | specified by OverwriteSpec, OverwriteStep and OverwriteRoom |
| Snapshot.OverwriteThenFill | src/sites/tenjin.js:134-153 | specified by OverwriteThenFillSpec and ScrapedRooms |
| Snapshot.FillThenOverwrite | src/sites/gflow.js:139-159 | specified by RoomOrdersAgree and ScrapedRoomsFillFirst |
| Snapshot.Extensionality | src/sites/tenjin.js:134-153 | two snapshots with the same dates and the same room lists are equal |
| Snapshot.PushNew | src/sites/tenjin.js:120-125 | appending if absent keeps the old list as a prefix, adds the slot and creates no duplicate |
| Snapshot.PushAllNew | src/sites/myaku.js:132-136 | appending each time if absent keeps the old list as a prefix, adds exactly the times and creates no duplicate |
| Snapshot.PermutationNoDuplicates | src/sites/tenjin.js:138 | reordering a list without duplicates creates none |
| Snapshot.PutRoom | src/sites/tenjin.js:135-138 | writing a room's list on a date sets that list and changes no other date or room |
| Snapshot.FillRoom | src/sites/tenjin.js:147-152 | filling gives the room `[]` on the date only if it had nothing, and changes nothing else |
| Snapshot.PutTwice | src/sites/tenjin.js:138 | the second write of a room's list wins |
| Snapshot.PutEntryIsFill | src/sites/myaku.js:128-131 | writing a room's own entry back is filling it |
| Snapshot.EnsureRoom | src/sites/tenjin.js:147-152 | creating the date and the room's list as needed is filling it |
| Snapshot.FillAllSpec | src/sites/tenjin.js:142-153 | after filling the week, the room has a list on every date of the week, kept where it had one, and nothing else changed |
| Snapshot.OverwriteSpec | src/sites/tenjin.js:134-139 | writing a table sets the room's list on each of its dates, and changes nothing else |
| Snapshot.OverwriteStep | src/sites/tenjin.js:134-139 | writing a table with one more date is one more room write |
| Snapshot.FillOverwriteCommute | src/sites/gflow.js:139-159 | filling the week and writing a table give the same snapshot in either order |
| Snapshot.SortedData | src/sites/tenjin.js:138 | each date's list is sorted in string order and is a permutation of the original |
| Snapshot.SortedDataOf | src/sites/tenjin.js:134-139 | the lists sorted one date at a time are the sorted table |
| Snapshot.SetRoom | src/sites/tenjin.js:135-138 | the in-place write of a room's list is the room write |
| Snapshot.OverwriteRoom | src/sites/tenjin.js:134-139 | the loop writes the sorted table for the room |
| Snapshot.FillAllStep | src/sites/tenjin.js:142-153 | filling one more day is one more fill |
| Snapshot.FillWeek | src/sites/tenjin.js:142-153 | the seven-day loop fills the room on every key of the week |
| Snapshot.RoomStep | src/sites/tenjin.js:39-154 | after one room's pass, its list on a date is its sorted table entry, else what it had, else `[]` within the week; other rooms are untouched |
| Snapshot.RoomLoopStep | src/sites/tenjin.js:39-154 | the per-room entry law survives the next room's pass |
| Snapshot.OverwriteThenFillSpec | src/sites/tenjin.js:39-154 | over distinct rooms, each room's entry on each date is fixed by its own table and the week, and no other room appears |
| Snapshot.OverwriteThenFillStep | src/sites/tenjin.js:39-154 | the room loop's state after one more room |
| Snapshot.RoomOrdersAgree | src/sites/gflow.js:31-160 | SAUNA OOO's order (fill, then write) and テンジン's (write, then fill) give the same snapshot |
| Snapshot.WeekEntry | src/sites/tenjin.js:142-153 | a room following the entry law has a list on every day of the week |
| Snapshot.FillThenOverwriteStep | src/sites/gflow.js:31-160 | the room loop's state after one more room |
| Snapshot.ScrapedRooms | src/sites/tenjin.js:39-156 | each scraped room's lists follow its own table, every room has a list on every day of the week, and unknown rooms have none |
| Snapshot.ScrapedRoomsFillFirst | src/sites/gflow.js:31-162 | the same three facts for the fill-first order |
| Grid.RowInto | src/sites/tenjin.js:113-127 | specified by RowIntoSpec and RecordRow |
| Grid.TableOf | src/sites/tenjin.js:94-128 | specified by TableOfSpec, TableOfMembers and ReadGrid |
| Grid.AddSlot | src/sites/tenjin.js:120-125 | a slot is added to a date's list unless already there, creating the date if needed |
| Grid.RowIntoSpec | src/sites/tenjin.js:113-127 | after a row's columns, a slot is listed exactly when it was before or is this row's slot at an open column |
| Grid.TableOfSpec | src/sites/tenjin.js:94-128 | no list holds a slot twice; a date appears exactly when some row lists a slot there, and a slot is listed on a date exactly when some row's open cell puts it there |
| Grid.RowSlotsMembers | src/sites/tenjin.js:95-127 | one row adds exactly its own open cells' slots and keeps the lists free of duplicates |
| Grid.TableOfMembers | src/sites/tenjin.js:94-128 | the row loop lists exactly the slots of the open cells of all rows, without duplicates |
| Grid.RecordRow | src/sites/tenjin.js:113-127 | the column loop records the row's slot in each open column |
| Grid.ReadGrid | src/sites/tenjin.js:94-128 | the row loop builds the table that the grid defines |
| Tenjin.NextYear | src/sites/tenjin.js:84-86 | specified by WeekDatesConsecutive: the year is forced to the next one exactly for a January start seen in December |
| Tenjin.WeekDateKey | src/sites/tenjin.js:80-88 | specified by WeekDatesConsecutive and DayKey |
| Tenjin.IsClockText | src/sites/tenjin.js:99-101 | specified by SlotLabelSpec: the rows that yield a slot |
| Tenjin.EndTime | src/sites/tenjin.js:105-109 | specified by EndTimeSpec |
| Tenjin.SlotLabel | src/sites/tenjin.js:99-110 | specified by SlotLabelSpec |
| Tenjin.SlotLabelSpec | src/sites/tenjin.js:99-110 | a row has a slot exactly when its trimmed first cell is `H:MM` or `HH:MM`; the slot is that text, `〜` and an `HH:MM` end 90 minutes later, modulo one day |
| Tenjin.Available | src/sites/tenjin.js:119 | specified by CalendarSpec: the cells whose column lists the row's slot |
| Tenjin.CalendarOf | src/sites/tenjin.js:64-131 | specified by CalendarSpec and CalendarData |
| Tenjin.RoomsDistinct | src/sites/tenjin.js:15-26 | the two rooms have different names |
| Tenjin.WeekDateKeys | src/sites/tenjin.js:78-88 | the week range gives seven keys |
| Tenjin.WeekDatesConsecutive | src/sites/tenjin.js:78-88 | the seven keys are consecutive days from the range's start, rolled over month ends, and the year is forced to next year only for a January week seen in December |
| Tenjin.DayKey | src/sites/tenjin.js:81-87 | one day's key is the week's key for that day |
| Tenjin.WeekDates | src/sites/tenjin.js:78-88 | the loop pushes the seven week keys in order |
| Tenjin.EndTimeSpec | src/sites/tenjin.js:103-110 | the end label is `HH:MM` with hour below 24 and minute below 60, ninety minutes after the start modulo a day |
| Tenjin.CalendarSpec | src/sites/tenjin.js:64-131 | no range gives no data; otherwise a slot is listed on a date exactly when a timed row has an open cell in that date's column, without duplicates |
| Tenjin.CalendarData | src/sites/tenjin.js:64-131 | the extraction returns the calendar's table |
| Tenjin.ScrapeRooms | src/sites/tenjin.js:39-154 | the room loop writes then fills each room in turn |
| Tenjin.Scrape | src/sites/tenjin.js:31-160 | each room's lists are its sorted calendar data, else `[]` for the week; no other room appears |
| Gflow.DateKeyIn | src/sites/gflow.js:84-87 | specified by DateKeyInSpec |
| Gflow.HeaderDate | src/sites/gflow.js:82-87 | specified by HeaderDateListSpec and HeaderDateListOrder: the key of one trimmed header, if any |
| Gflow.HeaderDateList | src/sites/gflow.js:78-88 | specified by HeaderDateListSpec, HeaderDateListOrder and HeaderDates |
| Gflow.RangeLabel | src/sites/gflow.js:101-105 | specified by RangeLabelSpec |
| Gflow.Open | src/sites/gflow.js:114-120 | specified by TableDataSpec: the cells whose column lists the row's slot |
| Gflow.TableDataOf | src/sites/gflow.js:69-132 | specified by TableDataSpec and TableData |
| Gflow.RoomsDistinct | src/sites/gflow.js:13-17 | the three rooms have pairwise different names |
| Gflow.FindDate | src/sites/gflow.js:84 | the result is the leftmost `DD/DD` at or after the start, or there is none |
| Gflow.DateKeyInSpec | src/sites/gflow.js:82-87 | a header has a key exactly when it holds `DD/DD`, and the key reads back as the year and the leftmost match |
| Gflow.Collect | src/sites/gflow.js:81-88 | collecting keeps at most one entry per element |
| Gflow.CollectSpec | src/sites/gflow.js:81-88 | an entry is collected exactly when some element yields it |
| Gflow.HeaderDateListSpec | src/sites/gflow.js:78-88 | a key is in the date list exactly when some header yields it |
| Gflow.CollectOrder | src/sites/gflow.js:81-88 | collecting goes element by element in order: two runs give their results concatenated, one element its own value or nothing |
| Gflow.HeaderDateListOrder | src/sites/gflow.js:78-88 | the date list follows the header cells in column order, each dated header giving its own key |
| Gflow.HeaderDates | src/sites/gflow.js:78-88 | the header loop builds the date list |
| Gflow.FindRange | src/sites/gflow.js:102 | the result is the leftmost `HH:MM~HH:MM` at or after the start, or there is none |
| Gflow.RangeLabelSpec | src/sites/gflow.js:101-105 | a row has a slot exactly when its first cell holds a range, and the slot is the leftmost range with `~` turned into `〜` |
| Gflow.TableDataSpec | src/sites/gflow.js:69-132 | fewer than two tables or no dates give no data; otherwise a slot is listed on a date exactly when a row's open cell puts it there, without duplicates |
| Gflow.TableData | src/sites/gflow.js:69-132 | the extraction returns the grid's table |
| Gflow.ScrapeRooms | src/sites/gflow.js:31-160 | the room loop fills then writes each room in turn |
| Gflow.Scrape | src/sites/gflow.js:19-166 | each room's lists are its sorted grid data, else `[]` for the week; no other room appears |
| Myaku.Stamp | src/sites/myaku.js:19-24 | specified by StampRoundTrip |
| Myaku.GetUrl | src/sites/myaku.js:14-27 | specified by GetUrlDates |
| Myaku.CellYear | src/sites/myaku.js:114-118 | specified by CellKeyRoundTrip: the next year exactly for January seen in December |
| Myaku.CellKey | src/sites/myaku.js:113-119 | specified by CellKeyRoundTrip |
| Myaku.DisplayName | src/sites/myaku.js:105-109 | specified by DisplayNameSpec |
| Myaku.DisplayNameSpec | src/sites/myaku.js:105-109 | a day plan keeps the room's display name; a night plan has its leftmost `（90分` replaced by `（night`, and keeps the name when there is none |
| Myaku.Known | src/sites/myaku.js:99-103 | specified by MergePlan and KnownOnly: a plan passes both `continue`s exactly when its room and its plan type are listed |
| Myaku.MergeCells | src/sites/myaku.js:111-143 | specified by MergeCellsClean and MergeDays |
| Myaku.MergePlans | src/sites/myaku.js:98-144 | specified by UnknownPlansIgnored, MergePlansClean and ShapeResult |
| Myaku.NightKey | src/sites/myaku.js:149-157 | specified by NightKeyOfLabel and MidnightSortsLast |
| Myaku.SortRooms | src/sites/myaku.js:148-159 | specified by SortDay and SortAll |
| Myaku.StampRoundTrip | src/sites/myaku.js:19-24 | the date part of the query reads back as the date |
| Myaku.GetUrlDates | src/sites/myaku.js:14-27 | the URL asks for today through six days later, a later date |
| Myaku.CellKeyRoundTrip | src/sites/myaku.js:111-119 | a cell's key reads back as its month and day, in the current year unless it is January seen in December |
| Myaku.MergeCell | src/sites/myaku.js:121-142 | an open cell adds the plan's times if absent, without duplicates; a full cell only ensures a list; nothing else changes |
| Myaku.MergePlan | src/sites/myaku.js:98-110 | a plan of an unknown room or plan type changes nothing |
| Myaku.KnownOnly | src/sites/myaku.js:99-103 | only plans of known rooms and types remain |
| Myaku.UnknownPlansIgnored | src/sites/myaku.js:99-103 | merging all plans is merging only the known ones |
| Myaku.MergeCellsClean | src/sites/myaku.js:111-143 | merging cells keeps every list free of duplicates |
| Myaku.MergePlansClean | src/sites/myaku.js:98-144 | merging plans keeps every list free of duplicates |
| Myaku.Pad2Digits | src/sites/myaku.js:119 | a two-digit padding is two digit characters |
| Myaku.StartOfLabel | src/sites/myaku.js:150 | the start of a slot label is its `HH:MM` |
| Myaku.ClockOfPadded | src/sites/myaku.js:152 | `HH:MM` reads back as its hour and minute |
| Myaku.NightKeyOfLabel | src/sites/myaku.js:149-157 | a slot's sort key is its start in minutes, with hours before 7 counted as the next day |
| Myaku.MidnightSortsLast | src/sites/myaku.js:154-157 | 23:00 sorts before 0:30, and 7:00 before 6:59 |
| Myaku.SortAll | src/sites/myaku.js:147-160 | sorting keeps the dates and rooms, and each list becomes a permutation sorted by the night key |
| Myaku.MergeTimes | src/sites/myaku.js:126-136 | the in-place append loop is the open-cell merge |
| Myaku.MergeDays | src/sites/myaku.js:111-143 | the cell loop is the merge of all cells |
| Myaku.SortDay | src/sites/myaku.js:148-159 | the per-room loop sorts every room's list of the day |
| Myaku.SortLists | src/sites/myaku.js:147-160 | the per-date loop sorts every list |
| Myaku.ShapeResult | src/sites/myaku.js:93-162 | the result is the sorted merge of all plans, each list without duplicates and sorted by the night key |
| Yogan.IsChallenge | src/sites/yogan.js:100 | specified by Scrape: a challenge title gives no dates |
| Yogan.Normalize | src/sites/yogan.js:174 | specified by NormalizeSpec |
| Yogan.StartHour | src/sites/yogan.js:188-189 | specified by StartHourOfLabel |
| Yogan.StartHourOfLabel | src/sites/yogan.js:188-189 | the sort key of a label is the number before its first `:` |
| Yogan.DayList | src/sites/yogan.js:160-193 | specified by DayListSpec |
| Yogan.ToPageCookie | src/sites/yogan.js:71-80 | name, value and flags are kept; each missing field gets its default |
| Yogan.BareCookieDefaults | src/sites/yogan.js:74-79 | a bare cookie gets `.reserva.be`, `/`, `-1` and `Lax` |
| Yogan.ToPageCookieIdempotent | src/sites/yogan.js:71-80 | converting a converted cookie changes nothing |
| Yogan.UserAgentOf | src/sites/yogan.js:65 | the agent is never empty, and it is the solver's agent whenever the solver gave one |
| Yogan.PageCookiesOf | src/sites/yogan.js:70-81 | one page cookie per solver cookie, in order, none without a solve |
| Yogan.CloudflareCache.constructor | src/sites/yogan.js:22-23 | the cache starts empty |
| Yogan.CloudflareCache.GetCloudflareCookies | src/sites/yogan.js:28-49 | a hit answers from the cache without asking the solver; a miss asks it and stores a non-empty answer |
| Yogan.SecondCallUsesCache | src/sites/yogan.js:28-49 | after a good solve, the second call answers the same without asking the solver |
| Yogan.PrepareSession | src/sites/yogan.js:56-82 | without the solver, or when it fails, the default agent and no cookies; on a cache hit the cached agent and cookies; on a fresh solve with cookies its agent and cookies, which are then cached |
| Yogan.NormalizeSpec | src/sites/yogan.js:174 | each tilde becomes `〜`, nothing else changes, none is left, and normalising twice is normalising once |
| Yogan.SlotsOf | src/sites/yogan.js:165-182 | the day's slots hold no duplicate |
| Yogan.SlotsOfMembers | src/sites/yogan.js:169-179 | a slot is kept exactly when it is the normalised text of a non-empty time |
| Yogan.CollectSlots | src/sites/yogan.js:165-182 | the collecting loop gives the day's slots |
| Yogan.SlotsOfEmpty | src/sites/yogan.js:172-186 | there are no slots exactly when every time text is empty |
| Yogan.SortedSlots | src/sites/yogan.js:187-191 | sorting by start hour keeps the same slots and no duplicate |
| Yogan.DayListSpec | src/sites/yogan.js:160-193 | a day's list is empty if its click failed or it has no time; otherwise it is the normalised times without duplicates, sorted by hour, with slots of the same hour in page order |
| Yogan.Scrape | src/sites/yogan.js:96-196 | a challenge page gives no data; otherwise the week's dates are exactly the keys, each with the single room's day list |
| Yogan.EmptyWeek | src/sites/yogan.js:117-124 | every day of the week starts with the room and `[]` |
| Yogan.ReadDays | src/sites/yogan.js:127-194 | the day loop gives every date its day's list and no other date appears |
| Yogan.RecordDay | src/sites/yogan.js:160-193 | one day's pass writes its list and changes nothing else |
| Pricing.Matches | src/pricing.js:124 | specified by PriceIn and GetPriceByRoom: no price exactly when no plan matches |
| Pricing.PlanPrice | src/pricing.js:125-128 | specified by PriceIn and WeekendOnlySplit |
| Pricing.PlanLine | src/pricing.js:148-156 | specified by AppendPlanLine, PlanLineNoChar and SurchargeShown |
| Pricing.PriceIn | src/pricing.js:123-131 | no price exactly when no plan name matches; otherwise the first matching plan's price for that kind of day |
| Pricing.GetPriceByRoom | src/pricing.js:119-132 | an unknown facility or no matching plan gives no price; otherwise the first matching plan's price |
| Pricing.LaterPlansIgnored | src/pricing.js:123-130 | plans after a match never change the price |
| Pricing.WeekendOnlySplit | src/pricing.js:125-128 | the weekend price differs only for a facility whose first matching plan has separate day prices |
| Pricing.PlanLines | src/pricing.js:147-157 | one line per plan, in order |
| Pricing.FormatPricing | src/pricing.js:139-160 | an unknown facility gives `""`; otherwise the sheet's lines, each ended by a line break |
| Pricing.FormatHeader | src/pricing.js:143-145 | the header is the name, the note if any, and a blank line |
| Pricing.AppendPlanLine | src/pricing.js:148-156 | one plan adds its line and a line break |
| Pricing.PlanStep | src/pricing.js:147-157 | the sheet after one more plan is one more line |
| Pricing.GroupedNoChar | src/pricing.js:149 | a grouped price has no character other than digits and commas |
| Pricing.PlanLineNoChar | src/pricing.js:148-155 | a plan line holds only the characters of its name, its prices and the fixed words |
| Pricing.SheetLayout | src/pricing.js:139-160 | the sheet reads back as the name, the note line if any, a blank line and one line per plan in order |
| Pricing.SurchargeShown | src/pricing.js:151-154 | a plan line mentions a surcharge exactly for a single-price plan with one |
| Notifier.RoomUrl | src/notifier.js:42 | specified by SendChatworkMessage: the request goes to the room's URL |
| Notifier.Head | src/notifier.js:96-97 | specified by BodyLines |
| Notifier.BodyOf | src/notifier.js:96-106 | specified by BuildBody, BodyLines and DetailTail |
| Notifier.FailureAlert | src/notifier.js:117-127 | specified by FailureAlertLines and FailureBullets |
| Notifier.SummaryMessage | src/notifier.js:170-178 | specified by SummaryLines and DailySummary |
| Notifier.GetConfig | src/notifier.js:7-15 | notifications are on exactly when the flag is the text `true`; the credentials pass through |
| Notifier.GateOf | src/notifier.js:25-38 | a message is sent exactly when notifications are on and both credentials are non-empty |
| Notifier.GateOrder | src/notifier.js:25-38 | the gates are checked in order: disabled, then the token, then the room |
| Notifier.SendChatworkMessage | src/notifier.js:22-65 | a request is made exactly when the gate allows, to the room's URL with the token and message, and the result is true exactly when it was answered ok |
| Notifier.Title | src/notifier.js:74-93 | every title starts with the checker's brand |
| Notifier.TitlesDistinct | src/notifier.js:75-93 | the five known kinds have different titles, none the generic one; any other kind, the daily summary included, gets the generic title |
| Notifier.TitleLengths | src/notifier.js:75-93 | the five titles have different lengths |
| Notifier.DetailLines | src/notifier.js:101-103 | one `key: value` line per detail, in order |
| Notifier.BuildBody | src/notifier.js:96-106 | the body building builds the notification body |
| Notifier.BodyLines | src/notifier.js:96-106 | the body reads back as the head, then the bulleted details between blank lines if any, then the timestamp closing the block |
| Notifier.SendNotification | src/notifier.js:72-109 | sending a notification sends its body |
| Notifier.FailureAlertLines | src/notifier.js:117-127 | the failure alert ends with the site, the count, the error (`不明` when missing or empty), a blank line and the timestamp |
| Notifier.ThreeDetailTail | src/notifier.js:96-106 | a body with three detail bullets ends with them, a blank line and the timestamp |
| Notifier.FailureItems | src/notifier.js:117-127 | the failure alert's detail lines are site, count and error |
| Notifier.FailureBullets | src/notifier.js:117-127 | those detail lines are single lines and bullet to the three expected lines |
| Notifier.DetailTail | src/notifier.js:96-106 | a body with details ends with their bullets, a blank line and the timestamp |
| Notifier.FallbackNotification | src/notifier.js:134-144 | the fallback notice names the site and the slot count among three details |
| Notifier.RecoveryNotification | src/notifier.js:150-159 | the recovery notice names the site first and has status `正常` |
| Notifier.SiteLines | src/notifier.js:175-177 | one line per unhealthy site, in order, with its failure count |
| Notifier.SummaryLines | src/notifier.js:170-178 | the summary reads back as the heading, the healthy count over the total, the section title and one line per unhealthy site |
| Notifier.DailySummary | src/notifier.js:165-189 | nothing is sent when all sites are healthy; otherwise the summary with the three counts |
| Notifier.TestConnection | src/notifier.js:194-203 | nothing is sent without both credentials |
| Notifier.TestConnectionIsSend | src/notifier.js:194-203 | the test behaves as sending the test message, so nothing is sent while notifications are off |
| DailyCheck.SlotTotal | scripts/daily-check.js:95 | specified by Classify, ClassifyIntended and OkTotalCountsAllSlots |
| DailyCheck.WarningTestAsWritten | scripts/daily-check.js:117 | specified by WarningNeverRaised: never holds |
| DailyCheck.WarningTestIntended | scripts/daily-check.js:116-120 | specified by ClassifyIntended and ClassifyDiffers |
| DailyCheck.ErrorMessage | scripts/daily-check.js:160-180 | specified by ErrorMessageText, BuildErrorMessage and ErrorMessageLines |
| DailyCheck.TotalSlots | scripts/daily-check.js:186 | specified by OkTotalCountsAllSlots |
| DailyCheck.OkMessage | scripts/daily-check.js:185-194 | specified by OkMessageLines |
| DailyCheck.WarningNeverRaised | scripts/daily-check.js:117 | the warning test as written never passes |
| DailyCheck.ErrorOf | scripts/daily-check.js:106-114 | a facility contributes an error entry exactly when it is an error |
| DailyCheck.Classify | scripts/daily-check.js:95-121 | as written: an error exactly when there are no rooms or an error text, and never a warning |
| DailyCheck.ClassifyIntended | scripts/daily-check.js:95-121 | as intended: error, warning when rooms exist but no slot is free, and ok otherwise, each exactly in its case |
| DailyCheck.ClassifyDiffers | scripts/daily-check.js:117 | the two classifications differ exactly on a facility with rooms, no error text and no free slot |
| DailyCheck.FullyBookedIsNotWarned | scripts/daily-check.js:117 | a facility with one fully booked room is ok as written and a warning as intended |
| DailyCheck.ErrorsOf | scripts/daily-check.js:94-128 | there is at most one error entry per facility |
| DailyCheck.ErrorsOfEmpty | scripts/daily-check.js:106-114 | there are no error entries exactly when no facility is an error |
| DailyCheck.WarningOf | scripts/daily-check.js:116-121 | a facility contributes a warning entry exactly when it is a warning |
| DailyCheck.WarningsOf | scripts/daily-check.js:94-128 | there is at most one warning entry per facility |
| DailyCheck.WarningsOfEmpty | scripts/daily-check.js:116-121 | there are no warning entries exactly when no facility is a warning |
| DailyCheck.CheckFacilities | scripts/daily-check.js:94-128 | with the corrected warning test: one result per facility, in order, with the errors and warnings in order and each flag set exactly when its list is non-empty |
| DailyCheck.CheckFacilitiesAsWritten | scripts/daily-check.js:94-128 | as written: one result per facility in order, the errors in order, and never a warning |
| DailyCheck.RunHealthCheckAsWritten | scripts/daily-check.js:71-155 | as written: a failed fetch gives one error entry; otherwise each facility is classified, errors are as in the corrected run, and no warning is ever recorded |
| DailyCheck.RunHealthCheck | scripts/daily-check.js:71-155 | a failed fetch gives one error entry with its message; otherwise each facility is classified, and there is an error exactly when some facility lacks rooms or has an error text |
| DailyCheck.ErrorMessageText | scripts/daily-check.js:160-180 | the report is the heading, the error section, the warning section and the closing |
| DailyCheck.BuildErrorMessage | scripts/daily-check.js:160-180 | the appending code builds the error report |
| DailyCheck.ErrorMessageLines | scripts/daily-check.js:160-180 | the report reads back as its heading, the error lines only when there are errors, the warning lines only when there are warnings, and the timestamp |
| DailyCheck.OkMessageLines | scripts/daily-check.js:185-194 | the ok report reads back as its heading, the facility count, the total of free slots and the timestamp |
| DailyCheck.OkTotalCountsAllSlots | scripts/daily-check.js:95-189 | the ok report's total counts every free slot of every room of every facility |
| DailyCheck.Finish | scripts/daily-check.js:143-204 | the script exits 1 and sends the error report exactly when there is an error; it exits 1 without sending when the run failed unexpectedly, and 0 otherwise |
| DailyCheck.FetchFailureReported | scripts/daily-check.js:136-145 | a failed fetch is reported with its message as the single error line and fails the script |
| DailyCheck.SingleErrorLines | scripts/daily-check.js:160-180 | a report with one error and no warning has exactly one error line |

## Left out

- Browser automation is not modelled. That covers Puppeteer navigation,
  clicks, waits, the room-selection steps of SAUNA OOO and テンジン
  (src/sites/gflow.js:35-66, src/sites/tenjin.js:43-57) and the script that
  hides the automated browser (src/sites/yogan.js:85-90). What a page shows is an input.
- Regular-expression parsing of page text is not modelled where its result is
  a record. Myaku's `planRegex` (src/sites/myaku.js:67-90) becomes the input
  `plansData`. Tenjin's week range becomes the optional start month and day.
- Network calls are not modelled: FlareSolverr, `fetch` to Chatwork and to the
  app's own API. The answers are inputs, and so are the request's form
  encoding and the JSON parsing.
- The clock is an input: `new Date()`, today's date and the `toLocaleString`
  timestamp.
- UTC versus local time is not modelled. `toISOString()` yields a UTC date
  where the code uses one, and the model uses one calendar date.
- Console logging, `process.exit` as such and timers are left out. The exit
  status is a value of `DailyCheck.Finish`.
- Code-unit order is not modelled. JavaScript's default sort compares UTF-16
  code units; the model compares characters, which differs only for
  characters outside the Basic Multilingual Plane.
- JavaScript `Number()` conversion is modelled only for digit strings. Its
  `NaN` for other text and the comparator's behaviour with `NaN` are left out.
  Clock texts from the pages are digits.
- `Pricing.PRICING` holds only three of the shipped facilities (`base`,
  `saunaOoo` and `giraffeTenjin`), cut down to two plans each: `base` keeps
  `80分1名` and `80分2名` of its eight plans, and `saunaOoo` drops
  `マル（3名/17.0㎡）`. Together they hold one of each kind of plan. The
  lookups take the table as a parameter, so they hold for any table.
- Lookups by an inherited property name are not modelled. In JavaScript,
  `PRICING[facilityKey]` (src/pricing.js:120,140), `ROOM_INFO[plan.room]` and
  `roomInfo.plans[plan.planType]` (src/sites/myaku.js:99-103) also find keys
  such as `constructor` or `toString` on the object's prototype, and the code
  then throws at `facility.plans` or `planInfo.times`. The model's maps treat
  such keys as unknown: `Pricing.GetPriceByRoom` gives no price,
  `Pricing.FormatPricing` gives `""`, and `Myaku.MergePlan` skips the plan.
- The orchestrator, the HTTP server (src/server.js) and the AI-vision fallback
  are not part of this model.
- Exceptions inside a scraper are not modelled. Each `scrape` wraps its work
  in `try { … } finally { page.close() }`, so an exception thrown there
  propagates out of `scrape` once the page is closed, and no partial data is
  returned. The one `catch` inside a scraper, around the solver call in Yogan,
  is modelled as the solver answer `Threw`. `DailyCheck.Finish` models the
  script's top-level catch as a run that returned nothing.
- `buildOkMessage` is defined but never sent by the run. It is modelled as
  `DailyCheck.OkMessage` with its line layout proved.
- DailyCheck.CheckFacilities: uses the warning test as evidently intended,
  not the one in the code, which never passes (see Findings); the loop as
  written is `DailyCheck.CheckFacilitiesAsWritten`.
- DailyCheck.RunHealthCheck: states the run with the intended warning test,
  for the same reason; the run as written is
  `DailyCheck.RunHealthCheckAsWritten`.
- The class-based part of Yogan's cache models one cache object. Its
  module-level lifetime across scrapes is a field of that object.

## Findings

| source | as written | input that shows it | evidently intended | confidence | as-written member | corrected member |
|---|---|---|---|---|---|---|
| scripts/daily-check.js:117 | `!facilityResult.status === 'error'` negates the status text first, then compares a boolean with a string, so the warning branch never runs | a facility with one room whose slot list is empty and no error text: it is reported `ok` | a facility with rooms, no error and no free slot is reported as a warning with `空き枠が0件（予約で埋まっている可能性あり）` | high; not executed | DailyCheck.Classify, DailyCheck.WarningNeverRaised, DailyCheck.FullyBookedIsNotWarned, DailyCheck.RunHealthCheckAsWritten | DailyCheck.ClassifyIntended, DailyCheck.ClassifyDiffers, DailyCheck.RunHealthCheck |
