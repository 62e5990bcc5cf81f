/** The snapshot every scraper returns as `result.dates`: date key -> room
    display name -> time-slot labels, and the in-place updates the scrapers
    apply to it. A JavaScript array is always truthy, so the scrapers' test
    `!result.dates[k][room]` means exactly "the room has no entry for `k`". */
module Snapshot {
  import opened Wrappers
  import opened Sorting
  import opened Calendar

  type Slots = seq<string>
  type Rooms = map<string, Slots>
  type Dates = map<string, Rooms>

  /** No slot label occurs twice. */
  ghost predicate NoDuplicates(s: Slots) {
    forall x :: multiset(s)[x] <= 1
  }

  /** The room's list for date `k`, if it has one. */
  function Lookup(d: Dates, k: string, room: string): Option<Slots> {
    if k in d && room in d[k] then Some(d[k][room]) else None
  }

  predicate HasEntry(d: Dates, k: string, room: string) {
    Lookup(d, k, room).Some?
  }

  /** The room's list for date `k`, or the empty list the scrapers start from. */
  function Entry(d: Dates, k: string, room: string): Slots {
    if HasEntry(d, k, room) then Lookup(d, k, room).value else []
  }

  /** No list in the snapshot holds a label twice. */
  ghost predicate Clean(d: Dates) {
    forall k, room :: HasEntry(d, k, room) ==> NoDuplicates(Lookup(d, k, room).value)
  }

  /** Every date is grouped by rooms, and a date and its room are distinct
      entries: two snapshots with the same dates and the same lookups are equal. */
  lemma {:induction false} Extensionality(a: Dates, b: Dates)
    requires a.Keys == b.Keys
    requires forall k, room :: Lookup(a, k, room) == Lookup(b, k, room)
    ensures a == b
  {
    forall k | k in a ensures a[k] == b[k] {
      forall room ensures room in a[k] <==> room in b[k] {
        assert Lookup(a, k, room) == Lookup(b, k, room);
      }
      forall room | room in a[k] ensures a[k][room] == b[k][room] {
        assert Lookup(a, k, room) == Lookup(b, k, room);
      }
    }
  }

  // -------------------------------------------------- de-duplicating append

  /** `if (!list.includes(x)) list.push(x)` */
  function PushNew(list: Slots, x: string): (r: Slots)
    ensures list <= r
    ensures forall y :: y in r <==> y in list || y == x
    ensures NoDuplicates(list) ==> NoDuplicates(r)
  {
    if x in list then list else list + [x]
  }

  /** `for (const x of xs) if (!list.includes(x)) list.push(x)` */
  function PushAllNew(list: Slots, xs: seq<string>): (r: Slots)
    ensures list <= r
    ensures forall y :: y in r <==> y in list || y in xs
    ensures NoDuplicates(list) ==> NoDuplicates(r)
  {
    if xs == [] then list
    else
      var init := PushAllNew(list, xs[..|xs| - 1]);
      assert xs == xs[..|xs| - 1] + [xs[|xs| - 1]];
      PushNew(init, xs[|xs| - 1])
  }

  /** Sorting only reorders, so it keeps a list free of duplicates. */
  lemma PermutationNoDuplicates(a: Slots, b: Slots)
    requires multiset(a) == multiset(b) && NoDuplicates(a)
    ensures NoDuplicates(b)
  {
  }

  // ----------------------------------------------------- single-entry updates

  /** `if (!d[k]) d[k] = {}; d[k][room] = slots` */
  function PutRoom(d: Dates, k: string, room: string, slots: Slots): (r: Dates)
    ensures r.Keys == d.Keys + {k}
    ensures Lookup(r, k, room) == Some(slots)
    ensures forall k', room' :: k' != k || room' != room ==> Lookup(r, k', room') == Lookup(d, k', room')
  {
    var rooms := if k in d then d[k] else map[];
    d[k := rooms[room := slots]]
  }

  /** `if (!d[k]) d[k] = {}; if (!d[k][room]) d[k][room] = []`: an existing
      entry is kept, a missing one becomes the empty list. */
  function FillRoom(d: Dates, k: string, room: string): (r: Dates)
    ensures r.Keys == d.Keys + {k}
    ensures Lookup(r, k, room) == if HasEntry(d, k, room) then Lookup(d, k, room) else Some([])
    ensures forall k', room' :: k' != k || room' != room ==> Lookup(r, k', room') == Lookup(d, k', room')
  {
    if HasEntry(d, k, room) then d else PutRoom(d, k, room, [])
  }

  /** A second write to the same entry replaces the first. */
  lemma PutTwice(d: Dates, k: string, room: string, a: Slots, b: Slots)
    ensures PutRoom(PutRoom(d, k, room, a), k, room, b) == PutRoom(d, k, room, b)
  {
    Extensionality(PutRoom(PutRoom(d, k, room, a), k, room, b), PutRoom(d, k, room, b));
  }

  /** Putting a room's own list back is the same as filling it. */
  lemma PutEntryIsFill(d: Dates, k: string, room: string)
    ensures PutRoom(d, k, room, Entry(d, k, room)) == FillRoom(d, k, room)
  {
    Extensionality(PutRoom(d, k, room, Entry(d, k, room)), FillRoom(d, k, room));
  }

  /** The scrapers' two guarded assignments, `if (!d[k]) d[k] = {}` and
      `if (!d[k][room]) d[k][room] = []`, applied in place. */
  method EnsureRoom(d: Dates, k: string, room: string) returns (r: Dates)
    ensures r == FillRoom(d, k, room)
  {
    r := d;
    if k !in r {
      r := r[k := map[]];
    }
    if room !in r[k] {
      r := r[k := r[k][room := []]];
    }
    Extensionality(r, FillRoom(d, k, room));
  }

  // ------------------------------------------------------ whole-week updates

  /** The fill loop over a list of date keys, in order. */
  function FillAll(d: Dates, keys: seq<string>, room: string): Dates
  {
    if keys == [] then d
    else FillRoom(FillAll(d, keys[..|keys| - 1], room), keys[|keys| - 1], room)
  }

  /** Filling adds the listed dates, gives the room an empty list on each of
      them where it had none, keeps its existing lists, and touches nothing
      else. */
  lemma {:induction false} FillAllSpec(d: Dates, keys: seq<string>, room: string)
    ensures var r := FillAll(d, keys, room);
      r.Keys == d.Keys + (set k | k in keys)
      && (forall k :: k in keys ==>
        Lookup(r, k, room) == if HasEntry(d, k, room) then Lookup(d, k, room) else Some([]))
      && forall k, room' :: k !in keys || room' != room ==> Lookup(r, k, room') == Lookup(d, k, room')
  {
    if keys != [] {
      var last := keys[|keys| - 1];
      assert keys == keys[..|keys| - 1] + [last];
      FillAllSpec(d, keys[..|keys| - 1], room);
    }
  }

  /** `for (const [k, times] of Object.entries(data)) { if (!d[k]) d[k] = {};
      d[k][room] = times; }`: the room's list is replaced, never merged. */
  function Overwrite(d: Dates, data: map<string, Slots>, room: string): Dates
  {
    map k | k in d.Keys + data.Keys ::
      if k in data then (if k in d then d[k] else map[])[room := data[k]] else d[k]
  }

  /** Writing adds the table's dates, gives the room exactly the table's list
      on each of them, and touches nothing else. */
  lemma OverwriteSpec(d: Dates, data: map<string, Slots>, room: string)
    ensures var r := Overwrite(d, data, room);
      r.Keys == d.Keys + data.Keys
      && (forall k :: k in data ==> Lookup(r, k, room) == Some(data[k]))
      && forall k, room' :: k !in data || room' != room ==> Lookup(r, k, room') == Lookup(d, k, room')
  {
  }

  /** Adding one more key to the written data is one more `PutRoom`. */
  lemma OverwriteStep(d: Dates, data: map<string, Slots>, room: string, k: string, slots: Slots)
    requires k !in data
    ensures Overwrite(d, data[k := slots], room) == PutRoom(Overwrite(d, data, room), k, room, slots)
  {
    var o := Overwrite(d, data, room);
    var a := Overwrite(d, data[k := slots], room);
    var b := PutRoom(o, k, room, slots);
    assert a.Keys == b.Keys;
    forall k' | k' in a ensures a[k'] == b[k'] {
      if k' == k {
        assert (k in o) == (k in d);
      } else {
        assert a[k'] == o[k'];
      }
    }
  }

  /** Filling the week and writing the scraped lists commute: gflow fills
      first and overwrites second, tenjin does the opposite, and both give the
      same snapshot. */
  lemma FillOverwriteCommute(d: Dates, keys: seq<string>, data: map<string, Slots>, room: string)
    ensures FillAll(Overwrite(d, data, room), keys, room) == Overwrite(FillAll(d, keys, room), data, room)
  {
    var o := Overwrite(d, data, room);
    var f := FillAll(d, keys, room);
    var a := FillAll(o, keys, room);
    var b := Overwrite(f, data, room);
    OverwriteSpec(d, data, room);
    OverwriteSpec(f, data, room);
    FillAllSpec(d, keys, room);
    FillAllSpec(o, keys, room);
    forall k, room' ensures Lookup(a, k, room') == Lookup(b, k, room') {
      if room' != room {
        assert Lookup(a, k, room') == Lookup(o, k, room') == Lookup(d, k, room');
        assert Lookup(b, k, room') == Lookup(f, k, room') == Lookup(d, k, room');
      } else if k in data {
        assert HasEntry(o, k, room);
        assert Lookup(a, k, room) == Some(data[k]);
      } else if k in keys {
        assert Lookup(a, k, room) == Lookup(f, k, room);
      } else {
        assert Lookup(a, k, room) == Lookup(d, k, room);
      }
    }
    Extensionality(a, b);
  }

  // ------------------------------------------------- the per-room merge loops

  /** Every list of a scraped table in the default string order. */
  function SortedData(data: map<string, Slots>): (r: map<string, Slots>)
    ensures r.Keys == data.Keys
    ensures forall k :: k in data ==> SortedLex(r[k]) && multiset(r[k]) == multiset(data[k])
  {
    map k | k in data :: SortLex(data[k])
  }

  lemma SortedDataOf(done: map<string, Slots>, data: map<string, Slots>)
    requires done.Keys == data.Keys
    requires forall k :: k in done ==> done[k] == SortLex(data[k])
    ensures done == SortedData(data)
  {
  }

  /** `if (!d[k]) d[k] = {}; d[k][room] = times`, in place. */
  method SetRoom(d: Dates, k: string, room: string, times: Slots) returns (r: Dates)
    ensures r == PutRoom(d, k, room, times)
  {
    r := d;
    if k !in r {
      r := r[k := map[]];
    }
    r := r[k := r[k][room := times]];
  }

  /** `for (const [k, times] of Object.entries(data)) { if (!d[k]) d[k] = {};
      d[k][room] = times.sort(); }`, in place. */
  method OverwriteRoom(d: Dates, data: map<string, Slots>, room: string) returns (r: Dates)
    ensures r == Overwrite(d, SortedData(data), room)
  {
    r := d;
    var pending := data.Keys;
    ghost var done: map<string, Slots> := map[];
    assert r == Overwrite(d, done, room) by {
      Extensionality(r, Overwrite(d, done, room));
    }
    while pending != {}
      invariant pending !! done.Keys && pending + done.Keys == data.Keys
      invariant forall k :: k in done ==> done[k] == SortLex(data[k])
      invariant r == Overwrite(d, done, room)
      decreases pending
    {
      var k :| k in pending;
      var times := SortLex(data[k]);
      OverwriteStep(d, done, room, k, times);
      r := SetRoom(r, k, room, times);
      done := done[k := times];
      pending := pending - {k};
    }
    SortedDataOf(done, data);
  }

  lemma FillAllStep(d: Dates, keys: seq<string>, i: nat, room: string)
    requires i < |keys|
    ensures FillAll(d, keys[..i + 1], room) == FillRoom(FillAll(d, keys[..i], room), keys[i], room)
  {
    assert keys[..i + 1][..i] == keys[..i];
  }

  /** The seven-day loop: `for (let i = 0; i < 7; i++)` the date `i` days
      from today gets an empty list for the room unless it has one. */
  method FillWeek(d: Dates, today: Date, room: string) returns (r: Dates)
    requires Valid(today)
    ensures r == FillAll(d, WeekKeys(today), room)
  {
    r := d;
    var keys := WeekKeys(today);
    for i := 0 to 7
      invariant r == FillAll(d, keys[..i], room)
    {
      var dateStr := DayKeyFrom(today, i);
      FillAllStep(d, keys, i, room);
      r := EnsureRoom(r, dateStr, room);
    }
    assert keys[..7] == keys;
  }

  // ------------------------------------------------------- the room loops

  /** No room name is listed twice. */
  predicate Distinct(rooms: seq<string>) {
    forall i, j :: 0 <= i < j < |rooms| ==> rooms[i] != rooms[j]
  }

  /** The room loop of tenjin: for each room in order, its scraped table is
      written sorted, then the week is filled. */
  function OverwriteThenFill(d: Dates, rooms: seq<string>, tables: seq<map<string, Slots>>, keys: seq<string>): Dates
    requires |rooms| == |tables|
  {
    if rooms == [] then d
    else
      var n := |rooms| - 1;
      FillAll(Overwrite(OverwriteThenFill(d, rooms[..n], tables[..n], keys), SortedData(tables[n]), rooms[n]), keys, rooms[n])
  }

  /** What a room ends with after the room loop: the sorted scraped list on a
      scraped date, otherwise on a date of the week the list it had before or
      `[]`, and elsewhere what it had before. */
  function RoomEntry(d: Dates, table: map<string, Slots>, keys: seq<string>, k: string, room: string): Option<Slots> {
    if k in table then Some(SortLex(table[k]))
    else if k in keys && !HasEntry(d, k, room) then Some([])
    else Lookup(d, k, room)
  }

  /** One pass of the room loop. */
  lemma RoomStep(prev: Dates, table: map<string, Slots>, keys: seq<string>, room: string)
    ensures var r := FillAll(Overwrite(prev, SortedData(table), room), keys, room);
      (forall k :: Lookup(r, k, room) == RoomEntry(prev, table, keys, k, room))
      && forall k, room' :: room' != room ==> Lookup(r, k, room') == Lookup(prev, k, room')
  {
    var o := Overwrite(prev, SortedData(table), room);
    OverwriteSpec(prev, SortedData(table), room);
    FillAllSpec(o, keys, room);
  }

  /** The induction step of `OverwriteThenFillSpec`, stated on snapshots alone. */
  lemma RoomLoopStep(d: Dates, prev: Dates, r: Dates, rooms: seq<string>, tables: seq<map<string, Slots>>, keys: seq<string>)
    requires |rooms| == |tables| && Distinct(rooms) && rooms != []
    requires var n := |rooms| - 1;
      forall i, k :: 0 <= i < n ==> Lookup(prev, k, rooms[i]) == RoomEntry(d, tables[i], keys, k, rooms[i])
    requires forall k, room :: room !in rooms[..|rooms| - 1] ==> Lookup(prev, k, room) == Lookup(d, k, room)
    requires var n := |rooms| - 1;
      forall k :: Lookup(r, k, rooms[n]) == RoomEntry(prev, tables[n], keys, k, rooms[n])
    requires forall k, room' :: room' != rooms[|rooms| - 1] ==> Lookup(r, k, room') == Lookup(prev, k, room')
    ensures forall i, k :: 0 <= i < |rooms| ==> Lookup(r, k, rooms[i]) == RoomEntry(d, tables[i], keys, k, rooms[i])
    ensures forall k, room :: room !in rooms ==> Lookup(r, k, room) == Lookup(d, k, room)
  {
    var n := |rooms| - 1;
    assert rooms[n] !in rooms[..n] by {
      forall j | 0 <= j < n ensures rooms[..n][j] != rooms[n] {
        assert rooms[..n][j] == rooms[j];
      }
    }
    forall i, k | 0 <= i < |rooms| ensures Lookup(r, k, rooms[i]) == RoomEntry(d, tables[i], keys, k, rooms[i]) {
      if i == n {
        assert Lookup(prev, k, rooms[n]) == Lookup(d, k, rooms[n]);
      }
    }
    forall k, room | room !in rooms ensures Lookup(r, k, room) == Lookup(d, k, room) {
      assert room !in rooms[..n];
    }
  }

  /** After the room loop every listed room holds its own table's sorted lists
      and an entry for every date of the week, and rooms not listed are as
      they were. */
  lemma {:induction false} OverwriteThenFillSpec(d: Dates, rooms: seq<string>, tables: seq<map<string, Slots>>, keys: seq<string>)
    requires |rooms| == |tables| && Distinct(rooms)
    ensures var r := OverwriteThenFill(d, rooms, tables, keys);
      (forall i, k :: 0 <= i < |rooms| ==> Lookup(r, k, rooms[i]) == RoomEntry(d, tables[i], keys, k, rooms[i]))
      && forall k, room :: room !in rooms ==> Lookup(r, k, room) == Lookup(d, k, room)
  {
    if rooms != [] {
      var n := |rooms| - 1;
      var prev := OverwriteThenFill(d, rooms[..n], tables[..n], keys);
      OverwriteThenFillSpec(d, rooms[..n], tables[..n], keys);
      assert forall i, k :: 0 <= i < n ==> Lookup(prev, k, rooms[i]) == RoomEntry(d, tables[i], keys, k, rooms[i]) by {
        forall i, k | 0 <= i < n ensures Lookup(prev, k, rooms[i]) == RoomEntry(d, tables[i], keys, k, rooms[i]) {
          assert rooms[..n][i] == rooms[i] && tables[..n][i] == tables[i];
        }
      }
      RoomStep(prev, tables[n], keys, rooms[n]);
      RoomLoopStep(d, prev, OverwriteThenFill(d, rooms, tables, keys), rooms, tables, keys);
    }
  }

  lemma OverwriteThenFillStep(d: Dates, rooms: seq<string>, tables: seq<map<string, Slots>>, keys: seq<string>, j: nat)
    requires |rooms| == |tables| && j < |rooms|
    ensures OverwriteThenFill(d, rooms[..j + 1], tables[..j + 1], keys)
      == FillAll(Overwrite(OverwriteThenFill(d, rooms[..j], tables[..j], keys), SortedData(tables[j]), rooms[j]), keys, rooms[j])
  {
    assert rooms[..j + 1][..j] == rooms[..j];
    assert tables[..j + 1][..j] == tables[..j];
  }

  /** The room loop of gflow: for each room in order, the week is filled,
      then its scraped table is written sorted. */
  function FillThenOverwrite(d: Dates, rooms: seq<string>, tables: seq<map<string, Slots>>, keys: seq<string>): Dates
    requires |rooms| == |tables|
  {
    if rooms == [] then d
    else
      var n := |rooms| - 1;
      Overwrite(FillAll(FillThenOverwrite(d, rooms[..n], tables[..n], keys), keys, rooms[n]), SortedData(tables[n]), rooms[n])
  }

  /** The two room loops give the same snapshot. */
  lemma {:induction false} RoomOrdersAgree(d: Dates, rooms: seq<string>, tables: seq<map<string, Slots>>, keys: seq<string>)
    requires |rooms| == |tables|
    ensures FillThenOverwrite(d, rooms, tables, keys) == OverwriteThenFill(d, rooms, tables, keys)
  {
    if rooms != [] {
      var n := |rooms| - 1;
      RoomOrdersAgree(d, rooms[..n], tables[..n], keys);
      FillOverwriteCommute(OverwriteThenFill(d, rooms[..n], tables[..n], keys), keys, SortedData(tables[n]), rooms[n]);
    }
  }

  /** A room whose entries follow `RoomEntry` over an empty start has an
      entry on every date of the week. */
  lemma WeekEntry(r: Dates, table: map<string, Slots>, keys: seq<string>, j: nat, room: string)
    requires j < |keys|
    requires forall k :: Lookup(r, k, room) == RoomEntry(map[], table, keys, k, room)
    ensures HasEntry(r, keys[j], room)
  {
    assert Lookup(r, keys[j], room) == RoomEntry(map[], table, keys, keys[j], room);
  }

  lemma FillThenOverwriteStep(d: Dates, rooms: seq<string>, tables: seq<map<string, Slots>>, keys: seq<string>, j: nat)
    requires |rooms| == |tables| && j < |rooms|
    ensures FillThenOverwrite(d, rooms[..j + 1], tables[..j + 1], keys)
      == Overwrite(FillAll(FillThenOverwrite(d, rooms[..j], tables[..j], keys), keys, rooms[j]), SortedData(tables[j]), rooms[j])
  {
    assert rooms[..j + 1][..j] == rooms[..j];
    assert tables[..j + 1][..j] == tables[..j];
  }

  /** The room loop run from an empty snapshot: each listed room has its
      sorted scraped lists, an entry on every date of the week, and no other
      room has anything. */
  lemma ScrapedRooms(dates: Dates, rooms: seq<string>, tables: seq<map<string, Slots>>, keys: seq<string>)
    requires |rooms| == |tables| && Distinct(rooms)
    requires dates == OverwriteThenFill(map[], rooms[..|rooms|], tables[..|rooms|], keys)
    ensures forall i, k :: 0 <= i < |rooms| ==> Lookup(dates, k, rooms[i]) == RoomEntry(map[], tables[i], keys, k, rooms[i])
    ensures forall i, j :: 0 <= i < |rooms| && 0 <= j < |keys| ==> HasEntry(dates, keys[j], rooms[i])
    ensures forall k, room :: room !in rooms ==> Lookup(dates, k, room) == None
  {
    assert rooms[..|rooms|] == rooms && tables[..|rooms|] == tables;
    OverwriteThenFillSpec(map[], rooms, tables, keys);
    forall i, j | 0 <= i < |rooms| && 0 <= j < |keys| ensures HasEntry(dates, keys[j], rooms[i]) {
      WeekEntry(dates, tables[i], keys, j, rooms[i]);
    }
  }

  /** `ScrapedRooms` for gflow's room loop, as its loop invariant leaves it. */
  lemma ScrapedRoomsFillFirst(dates: Dates, rooms: seq<string>, tables: seq<map<string, Slots>>, keys: seq<string>)
    requires |rooms| == |tables| && Distinct(rooms)
    requires dates == FillThenOverwrite(map[], rooms[..|rooms|], tables[..|rooms|], keys)
    ensures forall i, k :: 0 <= i < |rooms| ==> Lookup(dates, k, rooms[i]) == RoomEntry(map[], tables[i], keys, k, rooms[i])
    ensures forall i, j :: 0 <= i < |rooms| && 0 <= j < |keys| ==> HasEntry(dates, keys[j], rooms[i])
    ensures forall k, room :: room !in rooms ==> Lookup(dates, k, room) == None
  {
    RoomOrdersAgree(map[], rooms[..|rooms|], tables[..|rooms|], keys);
    ScrapedRooms(dates, rooms, tables, keys);
  }
}
