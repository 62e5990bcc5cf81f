/** The daily health check: the availability served for today is read
    back, each facility is classified, and a report is built from the
    result. The fetch, the date and the timestamp are inputs. */
module DailyCheck {
  import opened Wrappers
  import opened Text

  // ------------------------------------------------------------------ data

  datatype Room = Room(availableSlots: seq<string>)

  /** A facility as served; an absent or empty `error` is falsy. */
  datatype Facility = Facility(name: string, rooms: seq<Room>, error: Option<string>)

  datatype Status = Ok | Warning | Error

  datatype FacilityResult = FacilityResult(name: string, totalSlots: nat, roomCount: nat, status: Status)

  datatype Results = Results(
    date: string, timestamp: string, facilities: seq<FacilityResult>,
    hasError: bool, hasWarning: bool, errors: seq<string>, warnings: seq<string>)

  /** How reading the served availability ended. */
  datatype Fetch = Fetched(facilities: seq<Facility>) | FetchFailed(message: string)

  predicate HasErrorText(f: Facility) {
    f.error.Some? && f.error.value != ""
  }

  /** `rooms.reduce((sum, room) => sum + room.availableSlots.length, 0)` */
  function SlotTotal(rooms: seq<Room>): nat {
    if rooms == [] then 0 else SlotTotal(rooms[..|rooms| - 1]) + |rooms[|rooms| - 1].availableSlots|
  }

  // -------------------------------------------------------- the warning test

  /** The JavaScript values the warning test handles. */
  datatype JsValue = JsBool(b: bool) | JsString(s: string)

  predicate JsTruthy(v: JsValue) {
    match v
    case JsBool(b) => b
    case JsString(s) => s != ""
  }

  /** `!v` */
  function JsNot(v: JsValue): JsValue {
    JsBool(!JsTruthy(v))
  }

  /** `a === b` */
  predicate StrictEquals(a: JsValue, b: JsValue) {
    a == b
  }

  function StatusText(s: Status): (t: string)
    ensures t != ""
  {
    match s
    case Ok => "ok"
    case Warning => "warning"
    case Error => "error"
  }

  /** The warning test as written: `!` binds before `===`, so a status text
      is negated first and the boolean compared with a string. */
  predicate WarningTestAsWritten(totalSlots: nat, status: Status) {
    totalSlots == 0 && StrictEquals(JsNot(JsString(StatusText(status))), JsString("error"))
  }

  /** The warning test as written never passes. */
  lemma WarningNeverRaised(totalSlots: nat, status: Status)
    ensures !WarningTestAsWritten(totalSlots, status)
  {
  }

  /** The warning test as evidently intended: `status !== 'error'`. */
  predicate WarningTestIntended(totalSlots: nat, status: Status) {
    totalSlots == 0 && status != Error
  }

  // -------------------------------------------------------- classification

  /** The error status a facility gets before the warning test. */
  function ErrorStatus(f: Facility): Status {
    if |f.rooms| == 0 || HasErrorText(f) then Error else Ok
  }

  /** The error entry a facility contributes, if any. */
  function ErrorOf(f: Facility): (e: Option<string>)
    ensures e.Some? <==> ErrorStatus(f) == Error
  {
    if |f.rooms| == 0 then Some(f.name + ": 部屋データが0件")
    else if HasErrorText(f) then Some(f.name + ": " + f.error.value)
    else None
  }

  /** The result of one facility, as the code classifies it. */
  function Classify(f: Facility): (r: FacilityResult)
    ensures r.name == f.name && r.totalSlots == SlotTotal(f.rooms) && r.roomCount == |f.rooms|
    ensures r.status == Error <==> |f.rooms| == 0 || HasErrorText(f)
    ensures r.status != Warning
  {
    var status := ErrorStatus(f);
    var total := SlotTotal(f.rooms);
    WarningNeverRaised(total, status);
    FacilityResult(f.name, total, |f.rooms|, if WarningTestAsWritten(total, status) then Warning else status)
  }

  /** The result of one facility with the warning test as intended: a
      facility without rooms is an error whatever its error field, one with
      an error text is an error, one with rooms but no free slot is a
      warning, and the rest are ok. */
  function ClassifyIntended(f: Facility): (r: FacilityResult)
    ensures r.name == f.name && r.totalSlots == SlotTotal(f.rooms) && r.roomCount == |f.rooms|
    ensures r.status == Error <==> |f.rooms| == 0 || HasErrorText(f)
    ensures r.status == Warning <==> |f.rooms| > 0 && !HasErrorText(f) && SlotTotal(f.rooms) == 0
    ensures r.status == Ok <==> |f.rooms| > 0 && !HasErrorText(f) && SlotTotal(f.rooms) > 0
  {
    var status := ErrorStatus(f);
    var total := SlotTotal(f.rooms);
    FacilityResult(f.name, total, |f.rooms|, if WarningTestIntended(total, status) then Warning else status)
  }

  /** The two classifications differ exactly on a facility that has rooms,
      no error text and no free slot. */
  lemma ClassifyDiffers(f: Facility)
    ensures Classify(f) != ClassifyIntended(f) <==> |f.rooms| > 0 && !HasErrorText(f) && SlotTotal(f.rooms) == 0
  {
  }

  /** A facility with one fully booked room is such a facility. */
  lemma FullyBookedIsNotWarned()
    ensures var f := Facility("f", [Room([])], None);
      Classify(f).status == Ok && ClassifyIntended(f).status == Warning
  {
    var f := Facility("f", [Room([])], None);
    assert [Room([])][..0] == [];
    assert SlotTotal(f.rooms) == 0;
  }

  /** The error entries of a run over `facilities`, in order. */
  function ErrorsOf(facilities: seq<Facility>): (errors: seq<string>)
    ensures |errors| <= |facilities|
  {
    if facilities == [] then []
    else
      var init := ErrorsOf(facilities[..|facilities| - 1]);
      match ErrorOf(facilities[|facilities| - 1])
      case None => init
      case Some(e) => init + [e]
  }

  /** There are no error entries exactly when no facility is an error. */
  lemma {:induction false} ErrorsOfEmpty(facilities: seq<Facility>)
    ensures ErrorsOf(facilities) == [] <==> forall i :: 0 <= i < |facilities| ==> ErrorStatus(facilities[i]) != Error
  {
    if facilities != [] {
      var n := |facilities| - 1;
      ErrorsOfEmpty(facilities[..n]);
      assert forall i :: 0 <= i < n ==> facilities[..n][i] == facilities[i];
    }
  }

  /** The warning entry a facility contributes with the warning test as
      intended, if any. */
  function WarningOf(f: Facility): (w: Option<string>)
    ensures w.Some? <==> ClassifyIntended(f).status == Warning
  {
    if WarningTestIntended(SlotTotal(f.rooms), ErrorStatus(f)) then Some(f.name + ": 空き枠が0件（予約で埋まっている可能性あり）")
    else None
  }

  /** The warning entries of a run over `facilities`, in order. */
  function WarningsOf(facilities: seq<Facility>): (warnings: seq<string>)
    ensures |warnings| <= |facilities|
  {
    if facilities == [] then []
    else
      var init := WarningsOf(facilities[..|facilities| - 1]);
      match WarningOf(facilities[|facilities| - 1])
      case None => init
      case Some(w) => init + [w]
  }

  /** There are no warning entries exactly when no facility is a warning. */
  lemma {:induction false} WarningsOfEmpty(facilities: seq<Facility>)
    ensures WarningsOf(facilities) == [] <==> forall i :: 0 <= i < |facilities| ==> ClassifyIntended(facilities[i]).status != Warning
  {
    if facilities != [] {
      var n := |facilities| - 1;
      WarningsOfEmpty(facilities[..n]);
      assert forall i :: 0 <= i < n ==> facilities[..n][i] == facilities[i];
    }
  }

  // ------------------------------------------------------------------ the run

  /** The loop over the served facilities, with the warning test as
      intended: one result per facility in order, the error entries in
      order, and the warning entries in order. */
  method CheckFacilities(facilities: seq<Facility>)
    returns (results: seq<FacilityResult>, hasError: bool, hasWarning: bool, errors: seq<string>, warnings: seq<string>)
    ensures |results| == |facilities|
    ensures forall i :: 0 <= i < |facilities| ==> results[i] == ClassifyIntended(facilities[i])
    ensures errors == ErrorsOf(facilities)
    ensures hasError <==> errors != []
    ensures warnings == WarningsOf(facilities)
    ensures hasWarning <==> warnings != []
  {
    results, hasError, hasWarning, errors, warnings := [], false, false, [], [];
    for i := 0 to |facilities|
      invariant |results| == i
      invariant forall j :: 0 <= j < i ==> results[j] == ClassifyIntended(facilities[j])
      invariant errors == ErrorsOf(facilities[..i])
      invariant hasError <==> errors != []
      invariant warnings == WarningsOf(facilities[..i])
      invariant hasWarning <==> warnings != []
    {
      var facility := facilities[i];
      assert facilities[..i + 1][..i] == facilities[..i];
      var totalSlots := SlotTotal(facility.rooms);
      var roomCount := |facility.rooms|;
      var status := Ok;
      if roomCount == 0 {
        status := Error;
        hasError := true;
        errors := errors + [facility.name + ": 部屋データが0件"];
      } else if facility.error.Some? && facility.error.value != "" {
        status := Error;
        hasError := true;
        errors := errors + [facility.name + ": " + facility.error.value];
      }
      if totalSlots == 0 && status != Error {
        status := Warning;
        hasWarning := true;
        warnings := warnings + [facility.name + ": 空き枠が0件（予約で埋まっている可能性あり）"];
      }
      results := results + [FacilityResult(facility.name, totalSlots, roomCount, status)];
    }
    assert facilities[..|facilities|] == facilities;
  }

  /** The loop over the served facilities as written: one result per
      facility in order, the error entries in order, and never a warning. */
  method CheckFacilitiesAsWritten(facilities: seq<Facility>)
    returns (results: seq<FacilityResult>, hasError: bool, hasWarning: bool, errors: seq<string>, warnings: seq<string>)
    ensures |results| == |facilities|
    ensures forall i :: 0 <= i < |facilities| ==> results[i] == Classify(facilities[i])
    ensures errors == ErrorsOf(facilities)
    ensures hasError <==> errors != []
    ensures warnings == [] && !hasWarning
  {
    results, hasError, hasWarning, errors, warnings := [], false, false, [], [];
    for i := 0 to |facilities|
      invariant |results| == i
      invariant forall j :: 0 <= j < i ==> results[j] == Classify(facilities[j])
      invariant errors == ErrorsOf(facilities[..i])
      invariant hasError <==> errors != []
      invariant warnings == [] && !hasWarning
    {
      var facility := facilities[i];
      assert facilities[..i + 1][..i] == facilities[..i];
      var totalSlots := SlotTotal(facility.rooms);
      var roomCount := |facility.rooms|;
      var status := Ok;
      if roomCount == 0 {
        status := Error;
        hasError := true;
        errors := errors + [facility.name + ": 部屋データが0件"];
      } else if facility.error.Some? && facility.error.value != "" {
        status := Error;
        hasError := true;
        errors := errors + [facility.name + ": " + facility.error.value];
      }
      WarningNeverRaised(totalSlots, status);
      if WarningTestAsWritten(totalSlots, status) {
        status := Warning;
        hasWarning := true;
        warnings := warnings + [facility.name + ": 空き枠が0件（予約で埋まっている可能性あり）"];
      }
      results := results + [FacilityResult(facility.name, totalSlots, roomCount, status)];
    }
    assert facilities[..|facilities|] == facilities;
  }

  /** `runHealthCheck` as written, up to the notification: the same errors as
      the corrected run, and never a warning, so its report never has a
      warning section. */
  method RunHealthCheckAsWritten(date: string, timestamp: string, fetch: Fetch) returns (r: Results)
    ensures r.date == date && r.timestamp == timestamp
    ensures r.hasError <==> r.errors != []
    ensures !r.hasWarning && r.warnings == []
    ensures fetch.FetchFailed? ==> r.facilities == [] && r.errors == ["API取得エラー: " + fetch.message]
    ensures fetch.Fetched? ==> |r.facilities| == |fetch.facilities|
    ensures fetch.Fetched? ==> forall i :: 0 <= i < |fetch.facilities| ==> r.facilities[i] == Classify(fetch.facilities[i])
    ensures fetch.Fetched? ==> r.errors == ErrorsOf(fetch.facilities)
    ensures fetch.Fetched? ==> (r.hasError <==>
      exists i :: 0 <= i < |fetch.facilities| && (|fetch.facilities[i].rooms| == 0 || HasErrorText(fetch.facilities[i])))
  {
    match fetch
    case FetchFailed(message) =>
      r := Results(date, timestamp, [], true, false, ["API取得エラー: " + message], []);
    case Fetched(facilities) =>
      var results, hasError, hasWarning, errors, warnings := CheckFacilitiesAsWritten(facilities);
      ErrorsOfEmpty(facilities);
      r := Results(date, timestamp, results, hasError, hasWarning, errors, warnings);
  }

  /** `runHealthCheck` with the warning test as intended, up to the notification. */
  method RunHealthCheck(date: string, timestamp: string, fetch: Fetch) returns (r: Results)
    ensures r.date == date && r.timestamp == timestamp
    ensures r.hasError <==> r.errors != []
    ensures r.hasWarning <==> r.warnings != []
    ensures fetch.FetchFailed? ==> r.facilities == [] && r.errors == ["API取得エラー: " + fetch.message] && r.warnings == []
    ensures fetch.Fetched? ==> |r.facilities| == |fetch.facilities|
    ensures fetch.Fetched? ==> forall i :: 0 <= i < |fetch.facilities| ==> r.facilities[i] == ClassifyIntended(fetch.facilities[i])
    ensures fetch.Fetched? ==> r.errors == ErrorsOf(fetch.facilities) && r.warnings == WarningsOf(fetch.facilities)
    ensures fetch.Fetched? ==> (r.hasError <==>
      exists i :: 0 <= i < |fetch.facilities| && (|fetch.facilities[i].rooms| == 0 || HasErrorText(fetch.facilities[i])))
    ensures fetch.Fetched? ==> (r.hasWarning <==>
      exists i :: 0 <= i < |fetch.facilities| && |fetch.facilities[i].rooms| > 0 && !HasErrorText(fetch.facilities[i])
        && SlotTotal(fetch.facilities[i].rooms) == 0)
  {
    match fetch
    case FetchFailed(message) =>
      r := Results(date, timestamp, [], true, false, ["API取得エラー: " + message], []);
    case Fetched(facilities) =>
      var results, hasError, hasWarning, errors, warnings := CheckFacilities(facilities);
      ErrorsOfEmpty(facilities);
      WarningsOfEmpty(facilities);
      r := Results(date, timestamp, results, hasError, hasWarning, errors, warnings);
  }

  // ---------------------------------------------------------------- reports

  const ERROR_HEAD := "[info][title]" + "【サウナ空き状況チェッカー】" + "[警告] デイリーチェックでエラー検出" + "[/title]"
  const OK_HEAD := "[info][title]" + "【サウナ空き状況チェッカー】" + "[ok] デイリーチェック正常" + "[/title]"
  const ERROR_LEAD := " のデータ取得で問題を検出しました。"
  const OK_LEAD := " のデータ取得は正常です。"

  /** The lines of the error report before its last one. */
  function ErrorReportLines(r: Results): seq<string> {
    [ERROR_HEAD + r.date + ERROR_LEAD, ""]
    + (if r.errors != [] then ["【エラー】"] + Bulleted(r.errors) else [])
    + (if r.warnings != [] then ["", "【警告】"] + Bulleted(r.warnings) else [])
    + [""]
  }

  /** The error report. */
  function ErrorMessage(r: Results): string {
    JoinLines(ErrorReportLines(r)) + r.timestamp + "[/info]"
  }

  /** A titled section of bullets, or nothing when there are no items. */
  function SectionText(title: string, items: seq<string>): string {
    if items == [] then "" else title + JoinLines(Bulleted(items))
  }

  lemma SectionJoin(titles: seq<string>, items: seq<string>)
    ensures JoinLines(if items != [] then titles + Bulleted(items) else []) == SectionText(JoinLines(titles), items)
  {
    if items != [] {
      JoinLinesAppend(titles, Bulleted(items));
    }
  }

  lemma TwoLines(h: string)
    ensures JoinLines([h, ""]) == h + "\n\n"
  {
    assert [h, ""][1..] == [""];
    assert JoinLines([""]) == "\n";
    AppendAssoc(h, "\n", "\n");
  }

  /** The error report as the heading, the two sections and the closing. */
  lemma ErrorMessageText(r: Results)
    ensures ErrorMessage(r) == JoinLines([ERROR_HEAD + r.date + ERROR_LEAD, ""])
      + SectionText("【エラー】\n", r.errors) + SectionText("\n【警告】\n", r.warnings) + "\n" + r.timestamp + "[/info]"
  {
    var top := [ERROR_HEAD + r.date + ERROR_LEAD, ""];
    var e := if r.errors != [] then ["【エラー】"] + Bulleted(r.errors) else [];
    var w := if r.warnings != [] then ["", "【警告】"] + Bulleted(r.warnings) else [];
    assert ErrorReportLines(r) == top + e + w + [""];
    JoinLinesAppend(top + e + w, [""]);
    JoinLinesAppend(top + e, w);
    JoinLinesAppend(top, e);
    SectionJoin(["【エラー】"], r.errors);
    SectionJoin(["", "【警告】"], r.warnings);
    assert JoinLines(["【エラー】"]) == "【エラー】\n";
    assert JoinLines(["", "【警告】"]) == "\n【警告】\n" by {
      assert ["", "【警告】"][1..] == ["【警告】"];
    }
    assert JoinLines([""]) == "\n";
  }

  /** `buildErrorMessage`, built as the code builds it. */
  method BuildErrorMessage(r: Results) returns (message: string)
    ensures message == ErrorMessage(r)
  {
    message := ERROR_HEAD;
    message := message + r.date + " のデータ取得で問題を検出しました。\n\n";
    ghost var head := message;
    assert head == JoinLines([ERROR_HEAD + r.date + ERROR_LEAD, ""]) by {
      TwoLines(ERROR_HEAD + r.date + ERROR_LEAD);
      assert ERROR_LEAD + "\n\n" == " のデータ取得で問題を検出しました。\n\n";
      AppendAssoc(ERROR_HEAD + r.date, ERROR_LEAD, "\n\n");
    }
    if |r.errors| > 0 {
      message := message + "【エラー】\n";
      message := AppendBullets(message, r.errors);
      AppendAssoc(head, "【エラー】\n", JoinLines(Bulleted(r.errors)));
    }
    assert message == head + SectionText("【エラー】\n", r.errors);
    ghost var errorsDone := message;
    if |r.warnings| > 0 {
      message := message + "\n【警告】\n";
      message := AppendBullets(message, r.warnings);
      AppendAssoc(errorsDone, "\n【警告】\n", JoinLines(Bulleted(r.warnings)));
    }
    assert message == errorsDone + SectionText("\n【警告】\n", r.warnings);
    message := message + "\n" + r.timestamp + "[/info]";
    ErrorMessageText(r);
  }

  /** Read line by line, the error report is its heading and a blank line;
      the error section only when there are errors, one line per error; the
      warning section only when there are warnings, after a blank line, one
      line per warning; a blank line; and the timestamp closing the block. */
  lemma ErrorMessageLines(r: Results)
    requires '\n' !in r.date && '\n' !in r.timestamp
    requires NoNewlines(r.errors) && NoNewlines(r.warnings)
    ensures SplitLines(ErrorMessage(r)) == ErrorReportLines(r) + [r.timestamp + "[/info]"]
  {
    assert '\n' !in ERROR_HEAD && '\n' !in OK_HEAD && '\n' !in ERROR_LEAD && '\n' !in OK_LEAD;
    var head := ERROR_HEAD + r.date + ERROR_LEAD;
    var e := if r.errors != [] then ["【エラー】"] + Bulleted(r.errors) else [];
    var w := if r.warnings != [] then ["", "【警告】"] + Bulleted(r.warnings) else [];
    BulletsNoNewlines(r.errors);
    BulletsNoNewlines(r.warnings);
    NoNewlinesAppend(["【エラー】"], Bulleted(r.errors));
    NoNewlinesAppend(["", "【警告】"], Bulleted(r.warnings));
    NoNewlinesAppend([head, ""], e);
    NoNewlinesAppend([head, ""] + e, w);
    NoNewlinesAppend([head, ""] + e + w, [""]);
    assert ErrorReportLines(r) == [head, ""] + e + w + [""];
    JoinThenLast(ErrorReportLines(r), r.timestamp + "[/info]");
    assert ErrorMessage(r) == JoinLines(ErrorReportLines(r)) + (r.timestamp + "[/info]");
  }

  /** `facilities.reduce((sum, f) => sum + f.totalSlots, 0)` */
  function TotalSlots(results: seq<FacilityResult>): nat {
    if results == [] then 0 else TotalSlots(results[..|results| - 1]) + results[|results| - 1].totalSlots
  }

  /** `buildOkMessage` (defined, but not sent by the run). */
  function OkMessage(r: Results): string {
    OK_HEAD + r.date + OK_LEAD + "\n\n"
    + "・施設数: " + NatToString(|r.facilities|) + "\n"
    + "・総空き枠数: " + NatToString(TotalSlots(r.facilities)) + "\n"
    + "\n" + r.timestamp + "[/info]"
  }

  /** Read line by line, the ok report is its heading, a blank line, the
      facility count, the total of free slots, a blank line and the
      timestamp closing the block. */
  lemma OkMessageLines(r: Results)
    requires '\n' !in r.date && '\n' !in r.timestamp
    ensures SplitLines(OkMessage(r)) == [
      OK_HEAD + r.date + OK_LEAD, "",
      "・施設数: " + NatToString(|r.facilities|),
      "・総空き枠数: " + NatToString(TotalSlots(r.facilities)), "",
      r.timestamp + "[/info]"]
  {
    assert '\n' !in ERROR_HEAD && '\n' !in OK_HEAD && '\n' !in ERROR_LEAD && '\n' !in OK_LEAD;
    DigitsOneLine(|r.facilities|);
    DigitsOneLine(TotalSlots(r.facilities));
    OkLines(OK_HEAD + r.date + OK_LEAD, NatToString(|r.facilities|), NatToString(TotalSlots(r.facilities)), r.timestamp);
  }

  lemma DigitsOneLine(n: nat)
    ensures '\n' !in NatToString(n)
  {
    assert forall i :: 0 <= i < |NatToString(n)| ==> IsDigit(NatToString(n)[i]);
  }

  lemma OkLines(head: string, count: string, total: string, timestamp: string)
    requires '\n' !in head && '\n' !in count && '\n' !in total && '\n' !in timestamp
    ensures SplitLines(head + "\n\n" + "・施設数: " + count + "\n" + "・総空き枠数: " + total + "\n" + "\n" + timestamp + "[/info]")
      == [head, "", "・施設数: " + count, "・総空き枠数: " + total, "", timestamp + "[/info]"]
  {
    var lines := [head, "", "・施設数: " + count, "・総空き枠数: " + total, ""];
    OkLinesSingle(head, count, total);
    OkText(head, count, total, timestamp);
    JoinThenLast(lines, timestamp + "[/info]");
  }

  lemma OkLinesSingle(head: string, count: string, total: string)
    requires '\n' !in head && '\n' !in count && '\n' !in total
    ensures NoNewlines([head, "", "・施設数: " + count, "・総空き枠数: " + total, ""])
  {
    assert '\n' !in "・施設数: " && '\n' !in "・総空き枠数: ";
  }

  lemma OkText(head: string, count: string, total: string, timestamp: string)
    ensures head + "\n\n" + "・施設数: " + count + "\n" + "・総空き枠数: " + total + "\n" + "\n" + timestamp + "[/info]"
      == JoinLines([head, "", "・施設数: " + count, "・総空き枠数: " + total, ""]) + (timestamp + "[/info]")
  {
    JoinFive(head, "", "・施設数: " + count, "・総空き枠数: " + total, "");
  }

  lemma JoinFive(a: string, b: string, c: string, d: string, e: string)
    ensures JoinLines([a, b, c, d, e]) == a + "\n" + b + "\n" + c + "\n" + d + "\n" + e + "\n"
  {
    assert [a, b, c, d, e][1..] == [b, c, d, e];
    assert [b, c, d, e][1..] == [c, d, e];
    assert [c, d, e][1..] == [d, e];
    assert [d, e][1..] == [e];
    assert JoinLines([e]) == e + "\n";
    assert JoinLines([d, e]) == d + "\n" + (e + "\n");
    assert JoinLines([c, d, e]) == c + "\n" + (d + "\n" + (e + "\n"));
    assert JoinLines([b, c, d, e]) == b + "\n" + (c + "\n" + (d + "\n" + (e + "\n")));
  }

  /** The free slots of all facilities' rooms. */
  function AllSlots(facilities: seq<Facility>): nat {
    if facilities == [] then 0 else AllSlots(facilities[..|facilities| - 1]) + SlotTotal(facilities[|facilities| - 1].rooms)
  }

  /** The total in the ok report of a served run counts every free slot of
      every room of every facility. */
  lemma {:induction false} OkTotalCountsAllSlots(facilities: seq<Facility>, results: seq<FacilityResult>)
    requires |results| == |facilities|
    requires forall i :: 0 <= i < |facilities| ==> results[i] == ClassifyIntended(facilities[i])
    ensures TotalSlots(results) == AllSlots(facilities)
  {
    if facilities != [] {
      var n := |facilities| - 1;
      OkTotalCountsAllSlots(facilities[..n], results[..n]);
    }
  }

  // ------------------------------------------------------------- the outcome

  /** What the script ends with: the message it sends, if any, and its exit
      status. `None` stands for a run that failed unexpectedly. */
  datatype Outcome = Outcome(sent: Option<string>, exitCode: int)

  function Finish(run: Option<Results>): (o: Outcome)
    ensures o.exitCode == 1 <==> run.None? || run.value.hasError
    ensures o.exitCode == 0 <==> run.Some? && !run.value.hasError
    ensures o.sent.Some? <==> run.Some? && run.value.hasError
    ensures o.sent.Some? ==> o.sent.value == ErrorMessage(run.value)
  {
    match run
    case None => Outcome(None, 1)
    case Some(r) => Outcome(if r.hasError then Some(ErrorMessage(r)) else None, if r.hasError then 1 else 0)
  }

  /** A failed fetch is reported, with its message, and fails the script. */
  lemma FetchFailureReported(r: Results, message: string)
    requires r.errors == ["API取得エラー: " + message] && r.hasError && r.warnings == []
    requires '\n' !in r.date && '\n' !in r.timestamp && '\n' !in message
    ensures Finish(Some(r)).exitCode == 1
    ensures var lines := SplitLines(Finish(Some(r)).sent.value);
      |lines| == 6 && lines[2] == "【エラー】" && lines[3] == "・API取得エラー: " + message
  {
    assert NoNewlines(r.errors) by {
      assert r.errors[0] == "API取得エラー: " + message;
    }
    ErrorMessageLines(r);
    SingleErrorLines(r, message);
  }

  lemma SingleErrorLines(r: Results, message: string)
    requires r.errors == ["API取得エラー: " + message] && r.warnings == []
    ensures ErrorReportLines(r) == [ERROR_HEAD + r.date + ERROR_LEAD, "", "【エラー】", "・API取得エラー: " + message, ""]
  {
    assert "・" + ("API取得エラー: " + message) == "・API取得エラー: " + message;
    assert Bulleted(r.errors) == ["・API取得エラー: " + message];
    assert ErrorReportLines(r) == [ERROR_HEAD + r.date + ERROR_LEAD, "", "【エラー】", "・API取得エラー: " + message, ""];
  }
}
