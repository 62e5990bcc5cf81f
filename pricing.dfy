/** The price table of the Fukuoka private saunas, the price lookup by room
    name and the plain-text price sheet. A table entry that is absent (`undefined`)
    and a falsy `note` or `extraPerson` are modelled by `None`, `""` and `0`. */
module Pricing {
  import opened Wrappers
  import opened Text

  /** A plan is priced either per day type (`weekday` and `weekend`) or with
      one `price`. */
  datatype Rate = Split(weekday: nat, weekend: nat) | Flat(price: nat)

  /** `extraPerson` is the surcharge per additional guest; 0 when the plan has none. */
  datatype Plan = Plan(name: string, rate: Rate, extraPerson: nat)

  /** `note` is "" when the facility has none. */
  datatype Facility = Facility(name: string, note: string, plans: seq<Plan>)

  type Table = map<string, Facility>

  /** A few entries of the shipped table, one of each kind of plan. */
  const PRICING: Table := map[
    "base" := Facility("BASE Private sauna", "平日/土日祝で料金が異なる", [
      Plan("80分1名", Split(5000, 5300), 0),
      Plan("80分2名", Split(7800, 8300), 0)]),
    "saunaOoo" := Facility("SAUNA OOO FUKUOKA", "追加1名で加算あり", [
      Plan("サンカク（2名/15.5㎡）", Flat(4500), 2500),
      Plan("シカク（4名/23.4㎡）", Split(7000, 9000), 3000)]),
    "giraffeTenjin" := Facility("GIRAFFE 天神", "2名利用", [
      Plan("和の静寂 120分", Flat(8000), 0),
      Plan("温冷交互 120分", Flat(8000), 0)])
  ]

  // ----------------------------------------------------------------- lookup

  /** The room name and the plan name contain one another. */
  predicate Matches(p: Plan, room: string) {
    Contains(room, p.name) || Contains(p.name, room)
  }

  /** The price a plan charges on the given kind of day. */
  function PlanPrice(p: Plan, isWeekend: bool): nat {
    match p.rate
    case Split(weekday, weekend) => if isWeekend then weekend else weekday
    case Flat(price) => price
  }

  /** `i` is the first plan that matches the room. */
  predicate FirstMatchAt(plans: seq<Plan>, room: string, i: int) {
    0 <= i < |plans| && Matches(plans[i], room) && forall j :: 0 <= j < i ==> !Matches(plans[j], room)
  }

  /** The plan loop of `getPriceByRoom`: the price of the first matching plan. */
  function PriceIn(plans: seq<Plan>, room: string, isWeekend: bool): (r: Option<nat>)
    ensures r.None? <==> forall i :: 0 <= i < |plans| ==> !Matches(plans[i], room)
    ensures r.Some? ==> exists i :: FirstMatchAt(plans, room, i) && r.value == PlanPrice(plans[i], isWeekend)
  {
    if plans == [] then None
    else if Matches(plans[0], room) then
      assert FirstMatchAt(plans, room, 0);
      Some(PlanPrice(plans[0], isWeekend))
    else
      var r := PriceIn(plans[1..], room, isWeekend);
      assert r.Some? ==> exists i :: FirstMatchAt(plans, room, i) && r.value == PlanPrice(plans[i], isWeekend) by {
        if r.Some? {
          var i :| FirstMatchAt(plans[1..], room, i) && r.value == PlanPrice(plans[1..][i], isWeekend);
          assert FirstMatchAt(plans, room, i + 1);
        }
      }
      r
  }

  /** `getPriceByRoom(facilityKey, roomName, isWeekend = false)`: no price for
      an unknown facility or when no plan matches; otherwise the first matching
      plan's weekend or weekday price, or its single price. */
  function GetPriceByRoom(table: Table, key: string, room: string, isWeekend: bool := false): (r: Option<nat>)
    ensures key !in table ==> r.None?
    ensures key in table ==> (r.None? <==> forall i :: 0 <= i < |table[key].plans| ==> !Matches(table[key].plans[i], room))
    ensures r.Some? ==> key in table && exists i ::
      FirstMatchAt(table[key].plans, room, i) && r.value == PlanPrice(table[key].plans[i], isWeekend)
  {
    if key !in table then None else PriceIn(table[key].plans, room, isWeekend)
  }

  /** Once a plan matches, the plans after it are never consulted. */
  lemma LaterPlansIgnored(plans: seq<Plan>, later: seq<Plan>, room: string, isWeekend: bool)
    requires PriceIn(plans, room, isWeekend).Some?
    ensures PriceIn(plans + later, room, isWeekend) == PriceIn(plans, room, isWeekend)
  {
    var all := plans + later;
    var i :| FirstMatchAt(plans, room, i) && PriceIn(plans, room, isWeekend).value == PlanPrice(plans[i], isWeekend);
    assert all[i] == plans[i];
    assert FirstMatchAt(all, room, i);
    var j :| FirstMatchAt(all, room, j) && PriceIn(all, room, isWeekend).value == PlanPrice(all[j], isWeekend);
    assert FirstMatchAt(all, room, j);
  }

  /** The day type only matters for a plan priced per day type. */
  lemma WeekendOnlySplit(table: Table, key: string, room: string)
    requires GetPriceByRoom(table, key, room, true) != GetPriceByRoom(table, key, room)
    ensures key in table
    ensures exists i :: FirstMatchAt(table[key].plans, room, i) && table[key].plans[i].rate.Split?
  {
    var plans := table[key].plans;
    var i :| FirstMatchAt(plans, room, i) && GetPriceByRoom(table, key, room, true).value == PlanPrice(plans[i], true);
    var j :| FirstMatchAt(plans, room, j) && GetPriceByRoom(table, key, room).value == PlanPrice(plans[j], false);
    assert i == j;
  }

  // ------------------------------------------------------------ price sheet

  /** One line of the price sheet, without its line break. */
  function PlanLine(p: Plan): string {
    match p.rate
    case Split(weekday, weekend) => p.name + ": 平日¥" + Grouped(weekday) + " / 土日祝¥" + Grouped(weekend)
    case Flat(price) =>
      p.name + ": ¥" + Grouped(price) + (if p.extraPerson != 0 then " (+1名¥" + Grouped(p.extraPerson) + ")" else "")
  }

  function PlanLines(plans: seq<Plan>): (lines: seq<string>)
    ensures |lines| == |plans|
    ensures forall i :: 0 <= i < |plans| ==> lines[i] == PlanLine(plans[i])
  {
    seq(|plans|, i requires 0 <= i < |plans| => PlanLine(plans[i]))
  }

  /** The facility name, the note (only when there is one), a blank line. */
  function HeaderLines(f: Facility): seq<string> {
    [f.name] + (if f.note != "" then ["※ " + f.note] else []) + [""]
  }

  /** The lines of the sheet `formatPricing` produces for a facility. */
  function SheetLines(f: Facility): seq<string> {
    HeaderLines(f) + PlanLines(f.plans)
  }

  /** `formatPricing(facilityKey)`: "" for an unknown facility; otherwise
      the sheet, every line ended by a line break. */
  method FormatPricing(table: Table, key: string) returns (result: string)
    ensures key !in table ==> result == ""
    ensures key in table ==> result == JoinLines(SheetLines(table[key]))
  {
    if key !in table {
      return "";
    }
    var f := table[key];
    result := FormatHeader(f);
    assert HeaderLines(f) + PlanLines(f.plans[..0]) == HeaderLines(f);
    for i := 0 to |f.plans|
      invariant result == JoinLines(HeaderLines(f) + PlanLines(f.plans[..i]))
    {
      result := AppendPlanLine(result, f.plans[i]);
      PlanStep(f, i);
    }
    assert f.plans[..|f.plans|] == f.plans;
  }

  /** The name line, the note line when there is a note, and a blank line. */
  method FormatHeader(f: Facility) returns (result: string)
    ensures result == JoinLines(HeaderLines(f))
  {
    result := f.name + "\n";
    ghost var header := [f.name];
    assert result == JoinLines(header) by {
      assert header[1..] == [];
    }
    if f.note != "" {
      result := result + "※ " + f.note + "\n";
      JoinLinesSnoc(header, "※ " + f.note);
      header := header + ["※ " + f.note];
    }
    result := result + "\n";
    JoinLinesSnoc(header, "");
    header := header + [""];
  }

  /** One plan's line, appended with its line break. */
  method AppendPlanLine(before: string, p: Plan) returns (result: string)
    ensures result == before + PlanLine(p) + "\n"
  {
    result := before;
    match p.rate {
      case Split(weekday, weekend) =>
        result := result + p.name + ": 平日¥" + Grouped(weekday) + " / 土日祝¥" + Grouped(weekend) + "\n";
      case Flat(price) =>
        result := result + p.name + ": ¥" + Grouped(price);
        if p.extraPerson != 0 {
          result := result + " (+1名¥" + Grouped(p.extraPerson) + ")";
        }
        result := result + "\n";
    }
  }

  /** One more plan is one more line of the sheet. */
  lemma PlanStep(f: Facility, i: nat)
    requires i < |f.plans|
    ensures JoinLines(HeaderLines(f) + PlanLines(f.plans[..i + 1]))
      == JoinLines(HeaderLines(f) + PlanLines(f.plans[..i])) + PlanLine(f.plans[i]) + "\n"
  {
    JoinLinesSnoc(HeaderLines(f) + PlanLines(f.plans[..i]), PlanLine(f.plans[i]));
    assert PlanLines(f.plans[..i + 1]) == PlanLines(f.plans[..i]) + [PlanLine(f.plans[i])];
    AppendAssoc(HeaderLines(f), PlanLines(f.plans[..i]), [PlanLine(f.plans[i])]);
  }

  /** Names and notes that fit on one line. */
  predicate SingleLine(f: Facility) {
    '\n' !in f.name && '\n' !in f.note && forall i :: 0 <= i < |f.plans| ==> '\n' !in f.plans[i].name
  }

  lemma GroupedNoChar(n: nat, c: char)
    requires !IsDigit(c) && c != ','
    ensures c !in Grouped(n)
  {
  }

  lemma PlanLineNoChar(p: Plan, c: char)
    requires !IsDigit(c) && c != ',' && c !in p.name
    requires c !in ": 平日¥ / 土日祝"
    requires p.rate.Flat? && p.extraPerson != 0 ==> c !in " (+1名¥)"
    ensures c !in PlanLine(p)
  {
    match p.rate {
      case Split(weekday, weekend) =>
        GroupedNoChar(weekday, c);
        GroupedNoChar(weekend, c);
      case Flat(price) =>
        GroupedNoChar(price, c);
        GroupedNoChar(p.extraPerson, c);
    }
  }

  /** The sheet reads back, line by line, as the name line, a `※` note line
      only when the facility has a note, one blank line, then one line per
      plan in plan order. */
  lemma SheetLayout(f: Facility)
    requires SingleLine(f)
    ensures var lines := SplitLines(JoinLines(SheetLines(f)));
      var h := if f.note != "" then 3 else 2;
      |lines| == h + |f.plans| && lines[0] == f.name && lines[h - 1] == ""
      && (f.note != "" ==> lines[1] == "※ " + f.note)
      && forall i :: 0 <= i < |f.plans| ==> lines[h + i] == PlanLine(f.plans[i])
  {
    forall i | 0 <= i < |f.plans| ensures '\n' !in PlanLine(f.plans[i]) {
      PlanLineNoChar(f.plans[i], '\n');
    }
    SplitJoinLines(SheetLines(f));
  }

  /** The `(+1名¥…)` surcharge appears only on a plan with a single price and a
      non-zero `extraPerson`; a plan priced per day type never shows it. */
  lemma SurchargeShown(p: Plan)
    requires '(' !in p.name
    ensures '(' in PlanLine(p) <==> p.rate.Flat? && p.extraPerson != 0
  {
    match p.rate {
      case Split(weekday, weekend) =>
        PlanLineNoChar(p, '(');
      case Flat(price) =>
        GroupedNoChar(price, '(');
        var tail := " (+1名¥" + Grouped(p.extraPerson) + ")";
        if p.extraPerson != 0 {
          assert tail[1] == '(';
        }
    }
  }
}
