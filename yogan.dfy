/** サウナヨーガン福岡天神 (reserva.be): one room behind a Cloudflare challenge.
    Challenge cookies come from an external solver and are cached for the
    life of the process; the booking page is then read one day at a time.
    The solver, the browser and the clock are inputs here: the solver's
    answer, the page title, and per day whether its calendar entry could be
    clicked and the `data-time` texts of its open time boxes. */
module Yogan {
  import opened Wrappers
  import opened Text
  import opened Sorting
  import opened Calendar
  import opened Snapshot

  const ROOM_NAME := "プライベートサウナ（150分/定員3名）¥9,900-13,200"
  const DEFAULT_USER_AGENT := "Mozilla/5.0 (Macintosh; Intel Mac OS X 10_15_7) AppleWebKit/537.36 (KHTML, like Gecko) Chrome/120.0.0.0 Safari/537.36"

  // ---------------------------------------------------------------- cookies

  /** A cookie as the solver reports it. A field it leaves out, or sets to a
      falsy value, is `""`, `0` or `false`. */
  datatype SolverCookie = SolverCookie(
    name: string, value: string, domain: string, path: string,
    expiry: int, httpOnly: bool, secure: bool, sameSite: string)

  /** A cookie as it is handed to the browser. */
  datatype PageCookie = PageCookie(
    name: string, value: string, domain: string, path: string,
    expires: int, httpOnly: bool, secure: bool, sameSite: string)

  /** The solver's answer: its cookies (an absent list is the empty list) and
      user agent (`""` when absent), or a thrown error. */
  datatype SolverResult = Solved(cookies: seq<SolverCookie>, userAgent: string) | Threw

  /** What `getCloudfareCookies` returns when it returns something. */
  datatype CfData = CfData(cookies: seq<SolverCookie>, userAgent: string)

  /** The mapping to browser cookies: name and value are kept, and every
      other field falls back to its default when the solver left it falsy. */
  function ToPageCookie(c: SolverCookie): (r: PageCookie)
    ensures r.name == c.name && r.value == c.value
    ensures r.domain != "" && r.path != "" && r.expires != 0 && r.sameSite != ""
    ensures c.domain != "" ==> r.domain == c.domain
    ensures c.path != "" ==> r.path == c.path
    ensures c.expiry != 0 ==> r.expires == c.expiry
    ensures c.sameSite != "" ==> r.sameSite == c.sameSite
    ensures r.httpOnly == c.httpOnly && r.secure == c.secure
  {
    PageCookie(
      c.name, c.value,
      if c.domain != "" then c.domain else ".reserva.be",
      if c.path != "" then c.path else "/",
      if c.expiry != 0 then c.expiry else -1,
      c.httpOnly, c.secure,
      if c.sameSite != "" then c.sameSite else "Lax")
  }

  /** A bare cookie gets exactly the defaults. */
  lemma BareCookieDefaults(name: string, value: string)
    ensures ToPageCookie(SolverCookie(name, value, "", "", 0, false, false, ""))
      == PageCookie(name, value, ".reserva.be", "/", -1, false, false, "Lax")
  {
  }

  /** A browser cookie read back as a solver cookie. */
  function AsSolverCookie(p: PageCookie): SolverCookie {
    SolverCookie(p.name, p.value, p.domain, p.path, p.expires, p.httpOnly, p.secure, p.sameSite)
  }

  /** Mapping is idempotent: a cookie that went through it once is not
      changed by a second pass. */
  lemma ToPageCookieIdempotent(c: SolverCookie)
    ensures ToPageCookie(AsSolverCookie(ToPageCookie(c))) == ToPageCookie(c)
  {
  }

  /** `cfData?.userAgent || DEFAULT_USER_AGENT`: never empty, and the
      solver's agent whenever it gave one. */
  function UserAgentOf(cf: Option<CfData>): (ua: string)
    ensures ua != ""
    ensures cf.Some? && cf.value.userAgent != "" ==> ua == cf.value.userAgent
    ensures cf.None? ==> ua == DEFAULT_USER_AGENT
  {
    if cf.Some? && cf.value.userAgent != "" then cf.value.userAgent else DEFAULT_USER_AGENT
  }

  /** The cookies set on the page: every solver cookie, mapped, in order. */
  function PageCookiesOf(cf: Option<CfData>): (r: seq<PageCookie>)
    ensures cf.None? ==> r == []
    ensures cf.Some? ==> |r| == |cf.value.cookies|
    ensures cf.Some? ==> forall i :: 0 <= i < |r| ==> r[i] == ToPageCookie(cf.value.cookies[i])
  {
    if cf.None? then []
    else seq(|cf.value.cookies|, i requires 0 <= i < |cf.value.cookies| => ToPageCookie(cf.value.cookies[i]))
  }

  // ------------------------------------------------------------ the cache

  /** The module-level `cachedCookies` and `cachedUserAgent`; `None` is `null`. */
  class CloudflareCache {
    var cachedCookies: Option<seq<SolverCookie>>
    var cachedUserAgent: Option<string>

    /** Only a non-empty cookie list is ever cached. */
    ghost predicate Valid()
      reads this
    {
      cachedCookies.Some? ==> |cachedCookies.value| > 0
    }

    /** `cachedCookies && cachedUserAgent`: an array is always truthy, an
        empty string is not. */
    predicate Hit()
      reads this
    {
      cachedCookies.Some? && cachedUserAgent.Some? && cachedUserAgent.value != ""
    }

    constructor ()
      ensures cachedCookies == None && cachedUserAgent == None
      ensures Valid() && !Hit()
    {
      cachedCookies := None;
      cachedUserAgent := None;
    }

    /** `getCloudfareCookies()`. `consulted` says whether the solver is asked;
        `solve` is what it would answer. */
    method GetCloudflareCookies(solve: SolverResult) returns (r: Option<CfData>, consulted: bool)
      requires Valid()
      modifies this
      ensures Valid()
      ensures old(Hit()) ==> !consulted && unchanged(this)
      ensures old(Hit()) ==> r == Some(CfData(old(cachedCookies).value, old(cachedUserAgent).value))
      ensures !old(Hit()) ==> consulted
      ensures !old(Hit()) && solve.Solved? && |solve.cookies| > 0 ==>
        r == Some(CfData(solve.cookies, solve.userAgent))
        && cachedCookies == Some(solve.cookies) && cachedUserAgent == Some(solve.userAgent)
      ensures !old(Hit()) && !(solve.Solved? && |solve.cookies| > 0) ==> r == None && unchanged(this)
    {
      if cachedCookies.Some? && cachedUserAgent.Some? && cachedUserAgent.value != "" {
        return Some(CfData(cachedCookies.value, cachedUserAgent.value)), false;
      }
      consulted := true;
      match solve {
        case Threw =>
        case Solved(cookies, userAgent) =>
          if |cookies| > 0 {
            cachedCookies := Some(cookies);
            cachedUserAgent := Some(userAgent);
            return Some(CfData(cookies, userAgent)), true;
          }
      }
      r := None;
    }
  }

  /** Once a solve with cookies and a user agent succeeded, the next call
      answers from the cache, with the same data, whatever the solver would
      say. */
  method SecondCallUsesCache(first: SolverResult, second: SolverResult) returns (a: Option<CfData>, b: Option<CfData>, consulted: bool)
    requires first.Solved? && |first.cookies| > 0 && first.userAgent != ""
    ensures a.Some? && b == a && !consulted
  {
    var cache := new CloudflareCache();
    var solved;
    a, solved := cache.GetCloudflareCookies(first);
    b, consulted := cache.GetCloudflareCookies(second);
  }

  /** Lines 56-82 of `scrape`: the solver is only asked when it is
      reachable; the page gets the cached or freshly solved user agent and
      cookies, and the default agent without cookies when there are none. */
  method PrepareSession(cache: CloudflareCache, solverAvailable: bool, solve: SolverResult)
    returns (userAgent: string, cookies: seq<PageCookie>)
    requires cache.Valid()
    modifies cache
    ensures cache.Valid()
    ensures !solverAvailable ==> unchanged(cache) && userAgent == DEFAULT_USER_AGENT && cookies == []
    ensures solverAvailable && old(cache.Hit()) ==>
      var cf := Some(CfData(old(cache.cachedCookies).value, old(cache.cachedUserAgent).value));
      unchanged(cache) && userAgent == old(cache.cachedUserAgent).value && cookies == PageCookiesOf(cf)
    ensures solverAvailable && !old(cache.Hit()) && solve.Solved? && |solve.cookies| > 0 ==>
      var cf := Some(CfData(solve.cookies, solve.userAgent));
      userAgent == UserAgentOf(cf) && cookies == PageCookiesOf(cf)
      && cache.cachedCookies == Some(solve.cookies) && cache.cachedUserAgent == Some(solve.userAgent)
    ensures solverAvailable && !old(cache.Hit()) && !(solve.Solved? && |solve.cookies| > 0) ==>
      unchanged(cache) && userAgent == DEFAULT_USER_AGENT && cookies == []
    ensures userAgent != ""
  {
    var cfData: Option<CfData> := None;
    if solverAvailable {
      var consulted;
      cfData, consulted := cache.GetCloudflareCookies(solve);
    }
    userAgent := UserAgentOf(cfData);
    cookies := if cfData.Some? && |cfData.value.cookies| > 0 then PageCookiesOf(cfData) else [];
  }

  // ------------------------------------------------------------- the page

  /** `pageTitle.includes('Just a moment') || pageTitle.includes('Cloudflare')` */
  predicate IsChallenge(title: string) {
    Contains(title, "Just a moment") || Contains(title, "Cloudflare")
  }

  predicate IsTilde(c: char) {
    c == '～' || c == '~'
  }

  /** `time.replace(/[～~]/g, '〜')` */
  function Normalize(t: string): string {
    seq(|t|, i requires 0 <= i < |t| => if IsTilde(t[i]) then '〜' else t[i])
  }

  /** Normalising turns every tilde into `〜` and keeps every other
      character in place, so no tilde survives and normalising twice is
      normalising once. */
  lemma NormalizeSpec(t: string)
    ensures |Normalize(t)| == |t|
    ensures forall i :: 0 <= i < |t| ==> Normalize(t)[i] == if IsTilde(t[i]) then '〜' else t[i]
    ensures forall i :: 0 <= i < |t| ==> !IsTilde(Normalize(t)[i])
    ensures Normalize(Normalize(t)) == Normalize(t)
  {
  }

  /** The slots of one day's open time boxes: every non-empty `data-time`,
      normalised, appended unless already present. */
  function SlotsOf(times: seq<string>): (r: seq<string>)
    ensures NoDuplicates(r)
  {
    if times == [] then []
    else
      var n := |times| - 1;
      var init := SlotsOf(times[..n]);
      if times[n] == "" then init else PushNew(init, Normalize(times[n]))
  }

  /** A slot is listed exactly when some non-empty `data-time` normalises to it. */
  lemma {:induction false} SlotsOfMembers(times: seq<string>)
    ensures forall x :: x in SlotsOf(times) <==> exists j :: 0 <= j < |times| && times[j] != "" && x == Normalize(times[j])
  {
    if times != [] {
      var n := |times| - 1;
      SlotsOfMembers(times[..n]);
      forall x ensures x in SlotsOf(times) <==> exists j :: 0 <= j < |times| && times[j] != "" && x == Normalize(times[j]) {
        if exists j :: 0 <= j < |times| && times[j] != "" && x == Normalize(times[j]) {
          var j :| 0 <= j < |times| && times[j] != "" && x == Normalize(times[j]);
          if j < n {
            assert times[..n][j] == times[j];
          }
        }
        if x in SlotsOf(times[..n]) {
          var j :| 0 <= j < n && times[..n][j] != "" && x == Normalize(times[..n][j]);
          assert times[..n][j] == times[j];
        }
      }
    }
  }

  /** The in-page `forEach` over the open time boxes. */
  method CollectSlots(times: seq<string>) returns (slots: seq<string>)
    ensures slots == SlotsOf(times)
  {
    slots := [];
    for j := 0 to |times|
      invariant slots == SlotsOf(times[..j])
    {
      assert times[..j + 1][..j] == times[..j];
      var time := times[j];
      if time != "" {
        var normalizedTime := Normalize(time);
        if normalizedTime !in slots {
          slots := slots + [normalizedTime];
        }
      }
    }
    assert times[..|times|] == times;
  }

  /** `Number(t.split(':')[0])`: the hour a slot starts at. */
  function StartHour(t: string): int {
    var head := match IndexOf(t, ":") case None => t case Some(i) => t[..i];
    if AllDigits(head) then ParseDigits(head) else 0
  }
  /** The start hour of a label is the number before its first `:`. */
  lemma StartHourOfLabel(hour: string, rest: string)
    requires AllDigits(hour)
    ensures StartHour(hour + ":" + rest) == ParseDigits(hour)
  {
    var t := hour + ":" + rest;
    assert OccursAt(t, ":", |hour|);
    forall j | 0 <= j < |hour| ensures !OccursAt(t, ":", j) {
      assert t[j..j + 1][0] == hour[j];
    }
    assert t[..|hour|] == hour;
  }


  /** One day of the calendar: whether its entry could be clicked, and the
      `data-time` texts of its open time boxes (`""` for a missing one). */
  datatype Day = Day(clicked: bool, times: seq<string>)

  /** The room's list for a day: `[]` unless the day was clicked and yielded
      a slot, else the slots sorted by their starting hour. */
  function DayList(day: Day): seq<string> {
    var slots := SlotsOf(day.times);
    if day.clicked && |slots| > 0 then SortByKey(slots, StartHour) else []
  }

  /** A day has no slot exactly when each of its `data-time` texts is empty. */
  lemma SlotsOfEmpty(times: seq<string>)
    ensures SlotsOf(times) == [] <==> forall j :: 0 <= j < |times| ==> times[j] == ""
  {
    SlotsOfMembers(times);
    if SlotsOf(times) != [] {
      assert SlotsOf(times)[0] in SlotsOf(times);
    }
  }

  /** Sorting a day's slots keeps exactly its slots, each once. */
  lemma SortedSlots(slots: seq<string>)
    requires NoDuplicates(slots)
    ensures NoDuplicates(SortByKey(slots, StartHour))
    ensures forall x :: x in SortByKey(slots, StartHour) <==> x in slots
  {
    var sorted := SortByKey(slots, StartHour);
    PermutationNoDuplicates(slots, sorted);
    forall x ensures x in sorted <==> x in slots {
      assert x in sorted <==> x in multiset(sorted);
      assert x in slots <==> x in multiset(slots);
    }
  }

  /** A day's list is empty exactly when the day could not be clicked or had
      no slot; otherwise it holds each slot once, ascending by starting hour,
      and slots that start in the same hour keep the order of the page. */
  lemma DayListSpec(day: Day)
    ensures DayList(day) == [] <==> !day.clicked || forall j :: 0 <= j < |day.times| ==> day.times[j] == ""
    ensures NoDuplicates(DayList(day)) && SortedByKey(DayList(day), StartHour)
    ensures forall x :: x in DayList(day) <==>
      day.clicked && exists j :: 0 <= j < |day.times| && day.times[j] != "" && x == Normalize(day.times[j])
    ensures forall h :: WithKey(DayList(day), StartHour, h) == if day.clicked then WithKey(SlotsOf(day.times), StartHour, h) else []
  {
    var slots := SlotsOf(day.times);
    SlotsOfMembers(day.times);
    SlotsOfEmpty(day.times);
    if day.clicked && |slots| > 0 {
      SortedSlots(slots);
      assert slots[0] in DayList(day);
      forall h ensures WithKey(DayList(day), StartHour, h) == WithKey(slots, StartHour, h) {
        SortByKeyStable(slots, StartHour, h);
      }
    }
  }

  /** One turn of the second day loop: only day `i`'s entry changes. */
  lemma WeekStep(before: Dates, after: Dates, keys: seq<string>, i: nat, v: map<string, Slots>)
    requires i < |keys| && forall j, l :: 0 <= j < l < |keys| ==> keys[j] != keys[l]
    requires forall j :: 0 <= j < |keys| ==> keys[j] in before
    requires after == before[keys[i] := v]
    ensures forall k :: k in after <==> k in before
    ensures forall j :: 0 <= j < |keys| && j != i ==> after[keys[j]] == before[keys[j]]
    ensures after[keys[i]] == v
  {
  }

  /** `scrape` after the session is set up: nothing on a challenge page;
      otherwise each of the seven days from today maps the room to the list
      that day yielded, and there are no other dates or rooms. */
  method Scrape(title: string, today: Date, days: seq<Day>) returns (dates: Dates)
    requires Valid(today) && |days| == 7
    ensures IsChallenge(title) ==> dates == map[]
    ensures !IsChallenge(title) ==> forall k :: k in dates <==> k in WeekKeys(today)
    ensures !IsChallenge(title) ==> forall j :: 0 <= j < 7 ==>
      dates[WeekKeys(today)[j]] == map[ROOM_NAME := DayList(days[j])]
  {
    if Contains(title, "Just a moment") || Contains(title, "Cloudflare") {
      return map[];
    }
    var keys := WeekKeys(today);
    WeekKeysDistinct(today);
    dates := EmptyWeek(keys);
    dates := ReadDays(dates, keys, days);
  }

  /** The first day loop: each day of the week maps the room to `[]`. */
  method EmptyWeek(keys: seq<string>) returns (dates: Dates)
    ensures forall k :: k in dates <==> k in keys
    ensures forall j :: 0 <= j < |keys| ==> dates[keys[j]] == map[ROOM_NAME := []]
  {
    dates := map[];
    for i := 0 to |keys|
      invariant forall k :: k in dates <==> k in keys[..i]
      invariant forall j :: 0 <= j < i ==> dates[keys[j]] == map[ROOM_NAME := []]
    {
      var dateStr := keys[i];
      assert keys[..i + 1] == keys[..i] + [keys[i]];
      dates := dates[dateStr := map[]];
      dates := dates[dateStr := dates[dateStr][ROOM_NAME := []]];
    }
    assert keys[..|keys|] == keys;
  }

  /** The second day loop: a day that could be clicked and yielded slots
      gets them, sorted. */
  method ReadDays(init: Dates, keys: seq<string>, days: seq<Day>) returns (dates: Dates)
    requires |days| == |keys| && forall j, l :: 0 <= j < l < |keys| ==> keys[j] != keys[l]
    requires forall k :: k in init <==> k in keys
    requires forall j :: 0 <= j < |keys| ==> init[keys[j]] == map[ROOM_NAME := []]
    ensures forall k :: k in dates <==> k in keys
    ensures forall j :: 0 <= j < |keys| ==> dates[keys[j]] == map[ROOM_NAME := DayList(days[j])]
  {
    ghost var lists := seq(|keys|, j requires 0 <= j < |keys| => DayList(days[j]));
    dates := init;
    for i := 0 to |keys|
      invariant forall k :: k in dates <==> k in keys
      invariant forall j :: 0 <= j < i ==> dates[keys[j]] == map[ROOM_NAME := lists[j]]
      invariant forall j :: i <= j < |keys| ==> dates[keys[j]] == map[ROOM_NAME := []]
    {
      ghost var before := dates;
      dates := RecordDay(dates, keys[i], days[i]);
      WeekStep(before, dates, keys, i, map[ROOM_NAME := lists[i]]);
    }
  }

  /** One turn of the second day loop: the day's entry, `[]` so far, becomes
      the day's list. */
  method RecordDay(dates: Dates, dateStr: string, day: Day) returns (r: Dates)
    requires dateStr in dates && dates[dateStr] == map[ROOM_NAME := []]
    ensures r == dates[dateStr := map[ROOM_NAME := DayList(day)]]
  {
    r := dates;
    if day.clicked {
      var timeSlots := CollectSlots(day.times);
      if |timeSlots| > 0 {
        var list := SortByKey(timeSlots, StartHour);
        SingleRoom(r[dateStr], list);
        r := r[dateStr := r[dateStr][ROOM_NAME := list]];
        return;
      }
    }
    SameEntry(dates, dateStr, map[ROOM_NAME := DayList(day)]);
  }

  lemma SingleRoom(m: map<string, Slots>, list: Slots)
    requires m == map[ROOM_NAME := []]
    ensures m[ROOM_NAME := list] == map[ROOM_NAME := list]
  {
  }

  lemma SameEntry(d: Dates, k: string, v: map<string, Slots>)
    requires k in d && d[k] == v
    ensures d[k := v] == d
  {
  }
}
