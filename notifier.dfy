/** Chatwork notifications: what is sent, under which title, and whether
    anything is sent at all. The environment, the clock's timestamp and the
    HTTP response are inputs; a value the environment leaves unset is
    `None`, and an unset or empty setting is falsy. */
module Notifier {
  import opened Wrappers
  import opened Text

  // ----------------------------------------------------------- configuration

  /** The three environment variables the notifier reads. */
  datatype Env = Env(notificationEnabled: Option<string>, apiToken: Option<string>, roomId: Option<string>)

  datatype Config = Config(enabled: bool, apiToken: Option<string>, roomId: Option<string>)

  /** A setting that is present and not empty. */
  predicate Truthy(v: Option<string>) {
    v.Some? && v.value != ""
  }

  /** `getConfig`: notifications are on only when the flag is exactly
      `true`; the credentials are passed through as read. */
  function GetConfig(env: Env): (c: Config)
    ensures c.enabled <==> env.notificationEnabled == Some("true")
    ensures c.apiToken == env.apiToken && c.roomId == env.roomId
  {
    Config(env.notificationEnabled == Some("true"), env.apiToken, env.roomId)
  }

  /** Why a message is or is not sent. */
  datatype Gate = Disabled | MissingToken | MissingRoom | Send(apiToken: string, roomId: string)

  /** The checks at the head of `sendChatworkMessage`, in their order. */
  function GateOf(config: Config): (g: Gate)
    ensures g.Send? <==> config.enabled && Truthy(config.apiToken) && Truthy(config.roomId)
    ensures g.Send? ==> g.apiToken == config.apiToken.value && g.roomId == config.roomId.value
  {
    if !config.enabled then Disabled
    else if !Truthy(config.apiToken) then MissingToken
    else if !Truthy(config.roomId) then MissingRoom
    else Send(config.apiToken.value, config.roomId.value)
  }

  /** The first failing check wins: disabled before a missing token before a
      missing room id. */
  lemma GateOrder(config: Config)
    ensures GateOf(config) == Disabled <==> !config.enabled
    ensures GateOf(config) == MissingToken <==> config.enabled && !Truthy(config.apiToken)
    ensures GateOf(config) == MissingRoom <==> config.enabled && Truthy(config.apiToken) && !Truthy(config.roomId)
  {
  }

  // ---------------------------------------------------------------- sending

  /** How the HTTP call ended. */
  datatype Response = Ok | NotOk(status: int) | Threw

  /** The POST that would be made: where to, with which token, carrying
      which message (its form encoding is not modelled). */
  datatype Request = Request(url: string, apiToken: string, message: string)

  /** What a send attempt did: the request it made, if any, and its result. */
  datatype Delivery = Delivery(request: Option<Request>, ok: bool)

  function RoomUrl(roomId: string): string {
    "https://api.chatwork.com/v2/rooms/" + roomId + "/messages"
  }

  /** `sendChatworkMessage`: a request is made exactly when the gate opens,
      and the result is true exactly when it was made and answered ok. */
  function SendChatworkMessage(config: Config, message: string, response: Response): (d: Delivery)
    ensures d.request.Some? <==> GateOf(config).Send?
    ensures d.request.Some? ==> d.request.value == Request(RoomUrl(config.roomId.value), config.apiToken.value, message)
    ensures d.ok <==> d.request.Some? && response == Ok
  {
    match GateOf(config)
    case Send(token, roomId) => Delivery(Some(Request(RoomUrl(roomId), token, message)), response == Ok)
    case _ => Delivery(None, false)
  }

  // ------------------------------------------------------------------ titles

  const PREFIX := "【サウナ空き状況チェッカー】"

  /** The title of a notification type. */
  function Title(kind: string): (t: string)
    ensures StartsWith(t, PREFIX)
  {
    PREFIX + (
      if kind == "consecutive_failures" then "[警告] スクレイピング連続失敗"
      else if kind == "ai_fallback" then "[info] AI Visionフォールバック"
      else if kind == "recovery" then "[ok] スクレイピング復旧"
      else if kind == "daily_check_error" then "[警告] デイリーチェックでエラー検出"
      else if kind == "daily_check_ok" then "[ok] デイリーチェック正常"
      else "通知")
  }

  const KNOWN_KINDS: seq<string> := ["consecutive_failures", "ai_fallback", "recovery", "daily_check_error", "daily_check_ok"]

  /** The five known types have five different titles, none of them the
      generic one; every other type, `daily_summary` among them, gets the
      generic one. */
  lemma TitlesDistinct()
    ensures forall i, j :: 0 <= i < j < |KNOWN_KINDS| ==> Title(KNOWN_KINDS[i]) != Title(KNOWN_KINDS[j])
    ensures forall i :: 0 <= i < |KNOWN_KINDS| ==> Title(KNOWN_KINDS[i]) != PREFIX + "通知"
    ensures forall kind :: kind !in KNOWN_KINDS ==> Title(kind) == PREFIX + "通知"
    ensures Title("daily_summary") == PREFIX + "通知"
  {
    TitleLengths();
    assert |PREFIX + "通知"| == |PREFIX| + 2;
    forall i, j | 0 <= i < j < |KNOWN_KINDS| ensures Title(KNOWN_KINDS[i]) != Title(KNOWN_KINDS[j]) {
      assert |Title(KNOWN_KINDS[i])| != |Title(KNOWN_KINDS[j])|;
    }
  }

  /** The known titles have five different lengths. */
  lemma TitleLengths()
    ensures forall i :: 0 <= i < |KNOWN_KINDS| ==> |Title(KNOWN_KINDS[i])| == |PREFIX| + [16, 23, 14, 19, 15][i]
  {
    var lengths := [16, 23, 14, 19, 15];
    forall i | 0 <= i < |KNOWN_KINDS| ensures |Title(KNOWN_KINDS[i])| == |PREFIX| + lengths[i] {
    }
  }

  // ------------------------------------------------------------------ bodies

  /** A notification: its type, its message and its details, each detail a
      key and its value as text. */
  datatype Notification = Notification(kind: string, message: string, details: Option<seq<(string, string)>>)

  function DetailLines(details: seq<(string, string)>): (lines: seq<string>)
    ensures |lines| == |details|
    ensures forall i :: 0 <= i < |details| ==> lines[i] == details[i].0 + ": " + details[i].1
  {
    seq(|details|, i requires 0 <= i < |details| => details[i].0 + ": " + details[i].1)
  }

  function Head(n: Notification): string {
    "[info][title]" + Title(n.kind) + "[/title]" + n.message
  }

  /** The text `sendNotification` sends, stamped with `timestamp`. */
  function BodyOf(n: Notification, timestamp: string): string {
    Head(n)
    + (if n.details.Some? then "\n\n" + JoinLines(Bulleted(DetailLines(n.details.value))) else "")
    + "\n" + timestamp + "[/info]"
  }

  /** The body, built as `sendNotification` builds it. */
  method BuildBody(n: Notification, timestamp: string) returns (body: string)
    ensures body == BodyOf(n, timestamp)
  {
    var title := Title(n.kind);
    body := "[info][title]" + title + "[/title]";
    body := body + n.message;
    if n.details.Some? {
      body := body + "\n\n";
      body := AppendBullets(body, DetailLines(n.details.value));
    }
    body := body + "\n" + timestamp + "[/info]";
  }

  /** Read line by line, a body is the lines of its head; then, with
      details, a blank line, one `・key: value` line per detail in order and
      a blank line; and last the timestamp closing the block. */
  lemma BodyLines(n: Notification, timestamp: string)
    requires '\n' !in timestamp
    requires n.details.Some? ==> NoNewlines(DetailLines(n.details.value))
    ensures SplitLines(BodyOf(n, timestamp)) ==
      SplitLines(Head(n) + "\n")
      + (if n.details.Some? then [""] + Bulleted(DetailLines(n.details.value)) + [""] else [])
      + [timestamp + "[/info]"]
  {
    var last := timestamp + "[/info]";
    var head := Head(n) + "\n";
    assert head[|head| - 1] == '\n';
    if n.details.Some? {
      var bullets := Bulleted(DetailLines(n.details.value));
      BulletsNoNewlines(DetailLines(n.details.value));
      BlockLines(bullets);
      BodyText(Head(n), JoinLines(bullets), timestamp);
      LinesThenLast(head, [""] + bullets + [""], last);
    } else {
      assert BodyOf(n, timestamp) == Head(n) + "" + "\n" + timestamp + "[/info]";
      assert Head(n) + "" + "\n" + timestamp + "[/info]" == head + JoinLines([]) + last;
      LinesThenLast(head, [], last);
    }
  }

  /** The details block: a blank line, the bullets, a blank line. */
  lemma BodyText(h: string, block: string, timestamp: string)
    ensures h + ("\n\n" + block) + "\n" + timestamp + "[/info]"
      == (h + "\n") + ("\n" + block + "\n") + (timestamp + "[/info]")
  {
  }

  lemma BlockLines(bullets: seq<string>)
    requires NoNewlines(bullets)
    ensures JoinLines([""] + bullets + [""]) == "\n" + JoinLines(bullets) + "\n"
    ensures NoNewlines([""] + bullets + [""])
  {
    var lines := [""] + bullets + [""];
    assert lines == [""] + (bullets + [""]);
    JoinLinesAppend([""], bullets + [""]);
    JoinLinesSnoc(bullets, "");
    assert JoinLines([""]) == "\n";
  }

  /** `sendNotification`: the built body goes through the gate and out. */
  method SendNotification(config: Config, n: Notification, timestamp: string, response: Response) returns (d: Delivery)
    ensures d == SendChatworkMessage(config, BodyOf(n, timestamp), response)
  {
    var body := BuildBody(n, timestamp);
    d := SendChatworkMessage(config, body, response);
  }

  // ------------------------------------------------------------ the alerts

  /** `sendFailureAlert`; `lastError` is `None` when it is not given. */
  function FailureAlert(siteName: string, failureCount: nat, lastError: Option<string>): Notification {
    Notification(
      "consecutive_failures",
      siteName + " のスクレイピングが " + NatToString(failureCount) + " 回連続で失敗しています。\nサイト構造が変更された可能性があります。",
      Some([("サイト名", siteName), ("連続失敗回数", NatToString(failureCount)),
            ("エラー", if Truthy(lastError) then lastError.value else "不明")]))
  }

  /** The failure alert's body lists the site, the count and the error, in
      that order, with `不明` standing in for a missing or empty error. */
  lemma FailureAlertLines(siteName: string, failureCount: nat, lastError: Option<string>, timestamp: string)
    requires '\n' !in timestamp && '\n' !in siteName
    requires lastError.Some? ==> '\n' !in lastError.value
    ensures var lines := SplitLines(BodyOf(FailureAlert(siteName, failureCount, lastError), timestamp));
      var k := |lines| - 5;
      k >= 0
      && lines[k..] == ["・サイト名: " + siteName, "・連続失敗回数: " + NatToString(failureCount),
        "・エラー: " + (if Truthy(lastError) then lastError.value else "不明"), "", timestamp + "[/info]"]
  {
    var n := FailureAlert(siteName, failureCount, lastError);
    var error := if Truthy(lastError) then lastError.value else "不明";
    DigitsNoNewline(failureCount);
    FailureItems(siteName, NatToString(failureCount), error);
    FailureBullets(siteName, NatToString(failureCount), error);
    ThreeDetailTail(n, timestamp, "・サイト名: " + siteName, "・連続失敗回数: " + NatToString(failureCount), "・エラー: " + error);
  }

  lemma ThreeDetailTail(n: Notification, timestamp: string, x: string, y: string, z: string)
    requires '\n' !in timestamp && n.details.Some? && NoNewlines(DetailLines(n.details.value))
    requires Bulleted(DetailLines(n.details.value)) == [x, y, z]
    ensures var lines := SplitLines(BodyOf(n, timestamp));
      |lines| >= 5 && lines[|lines| - 5..] == [x, y, z, "", timestamp + "[/info]"]
  {
    DetailTail(n, timestamp);
    assert [x, y, z] + ["", timestamp + "[/info]"] == [x, y, z, "", timestamp + "[/info]"];
  }

  lemma FailureItems(siteName: string, count: string, error: string)
    ensures DetailLines([("サイト名", siteName), ("連続失敗回数", count), ("エラー", error)])
      == ["サイト名" + ": " + siteName, "連続失敗回数" + ": " + count, "エラー" + ": " + error]
  {
  }

  /** The failure alert's details, as bullets, each on one line. */
  lemma FailureBullets(siteName: string, count: string, error: string)
    requires '\n' !in siteName && '\n' !in count && '\n' !in error
    ensures var items := ["サイト名" + ": " + siteName, "連続失敗回数" + ": " + count, "エラー" + ": " + error];
      NoNewlines(items)
      && Bulleted(items) == ["・サイト名: " + siteName, "・連続失敗回数: " + count, "・エラー: " + error]
  {
    BulletText("サイト名", siteName);
    BulletText("連続失敗回数", count);
    BulletText("エラー", error);
    assert "・" + "サイト名" + ": " == "・サイト名: ";
    assert "・" + "連続失敗回数" + ": " == "・連続失敗回数: ";
    assert "・" + "エラー" + ": " == "・エラー: ";
  }

  lemma BulletText(name: string, value: string)
    requires '\n' !in name && '\n' !in value
    ensures '\n' !in name + ": " + value
    ensures "・" + (name + ": " + value) == ("・" + name + ": ") + value
  {
  }

  /** The last lines of a body with details: one bullet per detail, a blank
      line, and the timestamp. */
  lemma DetailTail(n: Notification, timestamp: string)
    requires '\n' !in timestamp && n.details.Some? && NoNewlines(DetailLines(n.details.value))
    ensures var lines := SplitLines(BodyOf(n, timestamp));
      var b := Bulleted(DetailLines(n.details.value));
      |lines| >= |b| + 2 && lines[|lines| - |b| - 2..] == b + ["", timestamp + "[/info]"]
  {
    BodyLines(n, timestamp);
    var b := Bulleted(DetailLines(n.details.value));
    var top := SplitLines(Head(n) + "\n");
    var last := timestamp + "[/info]";
    var lines := SplitLines(BodyOf(n, timestamp));
    assert lines == top + ([""] + b + [""]) + [last];
    assert lines == (top + [""]) + (b + ["", last]);
    assert ((top + [""]) + (b + ["", last]))[|top + [""]|..] == b + ["", last];
  }

  /** `sendFallbackNotification`. */
  function FallbackNotification(siteName: string, slots: nat): (n: Notification)
    ensures n.kind == "ai_fallback" && n.details.Some? && |n.details.value| == 3
    ensures n.details.value[0] == ("サイト名", siteName) && n.details.value[2] == ("取得した空き枠数", NatToString(slots))
  {
    Notification(
      "ai_fallback",
      siteName + " のDOM解析に失敗し、AI Vision（Gemini）にフォールバックしました。\nデータは正常に取得できましたが、サイト構造が変更された可能性があります。",
      Some([("サイト名", siteName), ("フォールバック方式", "Gemini Vision API"), ("取得した空き枠数", NatToString(slots))]))
  }

  /** `sendRecoveryNotification`. */
  function RecoveryNotification(siteName: string): (n: Notification)
    ensures n.kind == "recovery" && n.details == Some([("サイト名", siteName), ("ステータス", "正常")])
    ensures StartsWith(n.message, siteName)
  {
    Notification("recovery", siteName + " のスクレイピングが復旧しました。", Some([("サイト名", siteName), ("ステータス", "正常")]))
  }

  // ---------------------------------------------------------- daily summary

  datatype Site = Site(name: string, consecutiveFailures: nat)

  datatype Summary = Summary(totalSites: nat, healthySites: nat, unhealthySites: seq<Site>)

  function SiteLines(sites: seq<Site>): (lines: seq<string>)
    ensures |lines| == |sites|
    ensures forall i :: 0 <= i < |sites| ==> lines[i] == sites[i].name + ": 連続失敗 " + NatToString(sites[i].consecutiveFailures) + " 回"
  {
    seq(|sites|, i requires 0 <= i < |sites| => sites[i].name + ": 連続失敗 " + NatToString(sites[i].consecutiveFailures) + " 回")
  }

  const SUMMARY_HEAD: seq<string> := ["本日のスクレイピングヘルスサマリー", ""]

  /** The summary's message: the heading, the healthy count, and one bullet
      per unhealthy site. */
  function SummaryMessage(s: Summary): string {
    JoinLines(SUMMARY_HEAD + ["正常サイト数: " + NatToString(s.healthySites) + "/" + NatToString(s.totalSites), "", "【異常検知サイト】"])
    + JoinLines(Bulleted(SiteLines(s.unhealthySites)))
  }

  /** The summary's message, line by line: the fixed heading, the healthy
      count over the total, a blank line, the section title, then exactly
      one line per unhealthy site, in order, with its failure count. */
  lemma SummaryLines(s: Summary)
    requires forall i :: 0 <= i < |s.unhealthySites| ==> '\n' !in s.unhealthySites[i].name
    ensures SplitLines(SummaryMessage(s)) ==
      SUMMARY_HEAD + ["正常サイト数: " + NatToString(s.healthySites) + "/" + NatToString(s.totalSites), "", "【異常検知サイト】"]
      + Bulleted(SiteLines(s.unhealthySites))
  {
    var head := SUMMARY_HEAD + ["正常サイト数: " + NatToString(s.healthySites) + "/" + NatToString(s.totalSites), "", "【異常検知サイト】"];
    var bullets := Bulleted(SiteLines(s.unhealthySites));
    SummaryHeadOneLine(s);
    SiteBulletsOneLine(s.unhealthySites);
    NoNewlinesAppend(head, bullets);
    JoinLinesAppend(head, bullets);
    SplitJoinLines(head + bullets);
  }

  lemma SummaryHeadOneLine(s: Summary)
    ensures NoNewlines(SUMMARY_HEAD + ["正常サイト数: " + NatToString(s.healthySites) + "/" + NatToString(s.totalSites), "", "【異常検知サイト】"])
  {
    DigitsNoNewline(s.healthySites);
    DigitsNoNewline(s.totalSites);
    assert '\n' !in "本日のスクレイピングヘルスサマリー";
    assert '\n' !in "正常サイト数: ";
    assert '\n' !in "【異常検知サイト】";
  }

  lemma SiteBulletsOneLine(sites: seq<Site>)
    requires forall i :: 0 <= i < |sites| ==> '\n' !in sites[i].name
    ensures NoNewlines(Bulleted(SiteLines(sites)))
  {
    var bullets := Bulleted(SiteLines(sites));
    forall i | 0 <= i < |bullets| ensures '\n' !in bullets[i] {
      DigitsNoNewline(sites[i].consecutiveFailures);
    }
  }

  lemma SummaryHeadText(s: Summary)
    ensures JoinLines(SUMMARY_HEAD + ["正常サイト数: " + NatToString(s.healthySites) + "/" + NatToString(s.totalSites), "", "【異常検知サイト】"])
      == "本日のスクレイピングヘルスサマリー\n\n" + "正常サイト数: " + NatToString(s.healthySites) + "/" + NatToString(s.totalSites) + "\n" + "\n【異常検知サイト】\n"
  {
    var title, section := "本日のスクレイピングヘルスサマリー", "【異常検知サイト】";
    var healthy, total := NatToString(s.healthySites), NatToString(s.totalSites);
    var count := "正常サイト数: " + healthy + "/" + total;
    assert SUMMARY_HEAD + [count, "", section] == [title, "", count, "", section];
    FiveLines(title, count, section);
    assert title + "\n\n" == "本日のスクレイピングヘルスサマリー\n\n";
    assert "\n" + section + "\n" == "\n【異常検知サイト】\n";
    assert title + "\n\n" + (count) == title + "\n\n" + "正常サイト数: " + healthy + "/" + total;
  }

  /** Two lines, a blank, a line, a blank and a last line, joined. */
  lemma FiveLines(a: string, c: string, e: string)
    ensures JoinLines([a, "", c, "", e]) == a + "\n\n" + c + "\n" + ("\n" + e + "\n")
  {
    var lines := [a, "", c, "", e];
    assert lines[1..] == ["", c, "", e];
    assert lines[1..][1..] == [c, "", e];
    assert lines[1..][1..][1..] == ["", e];
    assert lines[1..][1..][1..][1..] == [e];
    assert JoinLines([e]) == e + "\n";
    assert JoinLines(["", e]) == "\n" + e + "\n";
    assert JoinLines([c, "", e]) == c + "\n" + ("\n" + e + "\n");
    assert JoinLines(["", c, "", e]) == "\n" + (c + "\n" + ("\n" + e + "\n"));
  }

  lemma DigitsNoNewline(n: nat)
    ensures '\n' !in NatToString(n)
  {
    var t := NatToString(n);
    forall i | 0 <= i < |t| ensures t[i] != '\n' {
      assert IsDigit(t[i]);
    }
  }

  /** `sendDailySummary`: nothing when every site is healthy; otherwise the
      summary notification, typed `daily_summary`, with the three counts as
      details. */
  method DailySummary(s: Summary) returns (n: Option<Notification>)
    ensures n.None? <==> |s.unhealthySites| == 0
    ensures n.Some? ==> n.value == Notification("daily_summary", SummaryMessage(s), Some([
      ("総サイト数", NatToString(s.totalSites)), ("正常サイト数", NatToString(s.healthySites)),
      ("異常サイト数", NatToString(|s.unhealthySites|))]))
  {
    if |s.unhealthySites| == 0 {
      return None;
    }
    var message := "本日のスクレイピングヘルスサマリー\n\n";
    message := message + "正常サイト数: " + NatToString(s.healthySites) + "/" + NatToString(s.totalSites) + "\n";
    message := message + "\n【異常検知サイト】\n";
    SummaryHeadText(s);
    message := AppendBullets(message, SiteLines(s.unhealthySites));
    n := Some(Notification("daily_summary", message, Some([
      ("総サイト数", NatToString(s.totalSites)), ("正常サイト数", NatToString(s.healthySites)),
      ("異常サイト数", NatToString(|s.unhealthySites|))])));
  }

  // -------------------------------------------------------- connection test

  const TEST_MESSAGE := "[info][title]テスト通知[/title]サウナ空き状況チェッカーからのテスト通知です。[/info]"

  /** `testConnection`. */
  function TestConnection(config: Config, response: Response): (d: Delivery)
    ensures !Truthy(config.apiToken) || !Truthy(config.roomId) ==> d == Delivery(None, false)
  {
    if !Truthy(config.apiToken) || !Truthy(config.roomId) then Delivery(None, false)
    else SendChatworkMessage(config, TEST_MESSAGE, response)
  }

  /** The credential check of `testConnection` repeats the one inside the
      send: the test behaves exactly like sending the test message, and in
      particular sends nothing while notifications are disabled. */
  lemma TestConnectionIsSend(config: Config, response: Response)
    ensures TestConnection(config, response) == SendChatworkMessage(config, TEST_MESSAGE, response)
    ensures !config.enabled ==> TestConnection(config, response).request.None?
  {
  }
}
