/**
 * The itinerary generator: the inclusive day count of a trip, the prompt sent to the language
 * model, the deterministic fallback plan, the normaliser that cuts a JSON object out of the
 * model's reply and stamps the request's metadata on it, and the service object that ties them
 * together around one call to the remote model.
 */
module AiService {
  import opened Basics
  import opened Text
  import opened Calendar
  import opened TravelTypes

  // ---------------------------------------------------------------- duration

  /** Both dates of the request are real calendar days written `YYYY-MM-DD`. */
  predicate ValidDates(request: PlanningRequest)
  {
    ParseIsoDate(request.startDate).Some? && ParseIsoDate(request.endDate).Some?
  }

  const MillisecondsPerDay: int := 1000 * 60 * 60 * 24

  /** The day number of 1970-01-01, where JavaScript time values count from. */
  const UnixEpochDay: nat := 719528

  /** `new Date(text).getTime()` for a `YYYY-MM-DD` text: milliseconds since 1970-01-01 UTC. */
  function TimeValue(n: nat): int
  {
    (n - UnixEpochDay) * MillisecondsPerDay
  }

  function Abs(x: int): nat
  {
    if x < 0 then -x else x
  }

  /** `Math.ceil`: the least integer not below `x`. */
  function Ceil(x: real): (r: int)
    ensures x <= r as real < x + 1.0
  {
    -((-x).Floor)
  }

  /**
   * The body of `calculateDuration` on two day numbers: the absolute difference of their time
   * values, in whole days rounded up, plus one. Both ends count, and order does not matter.
   */
  function InclusiveDays(first: nat, last: nat): (days: nat)
    ensures days == Abs(last - first) + 1
  {
    var diffTime := Abs(TimeValue(last) - TimeValue(first));
    assert diffTime == Abs(last - first) * MillisecondsPerDay;
    Ceil(diffTime as real / MillisecondsPerDay as real) + 1
  }

  /** `calculateDuration`: the number of calendar days from `start` to `end`, both counted. */
  function CalculateDuration(start: string, end: string): (days: nat)
    requires ParseIsoDate(start).Some? && ParseIsoDate(end).Some?
    ensures days == Abs(ParseIsoDate(end).value - ParseIsoDate(start).value) + 1
  {
    InclusiveDays(ParseIsoDate(start).value, ParseIsoDate(end).value)
  }

  /** Five days from the first to the fifth of January 2024, whichever date is given first; one day for a same-day trip. */
  lemma DurationExamples()
    ensures ParseIsoDate("2024-01-01").Some? && ParseIsoDate("2024-01-05").Some?
    ensures CalculateDuration("2024-01-01", "2024-01-05") == 5
    ensures CalculateDuration("2024-01-05", "2024-01-01") == 5
    ensures CalculateDuration("2024-01-01", "2024-01-01") == 1
  {
    var first, fifth := "2024-01-01", "2024-01-05";
    assert first[..4] == fifth[..4] == "2024";
    assert first[5..7] == fifth[5..7] == "01" && first[8..] == "01" && fifth[8..] == "05";
    assert ParseDigits("01") == 1 by {
      assert "01"[..1] == "0";
    }
    assert ParseDigits("05") == 5 by {
      assert "05"[..1] == "0";
    }
    assert IsIsoDateShape(first) && IsIsoDateShape(fifth);
  }

  // ---------------------------------------------------------------- prompt

  /** The prompt's special-requirements line: empty unless a non-empty requirement was given. */
  function SpecialRequirementsLine(special: Option<string>): (line: string)
    ensures line != [] <==> special.Some? && special.value != []
    ensures line != [] ==> line == "特殊要求：" + special.value
  {
    match special
    case Some(text) => if text != [] then "特殊要求：" + text else []
    case None => []
  }

  /**
   * The fixed instructions closing every prompt: the five things the plan must contain and an
   * example of its JSON shape, one line after another.
   */
  const OutputShape: string :=
    "请提供包含以下内容的JSON格式旅行计划：\n" +
    "1. 每天的详细行程（包括景点、活动、用餐建议）\n" +
    "2. 推荐的住宿（名称、类型、大概费用）\n" +
    "3. 交通方式和预计费用\n" +
    "4. 每个活动的预计花费\n" +
    "5. 总预算分析\n" +
    "\n" +
    "返回格式示例：\n" +
    "{\n" +
    "  \"title\": \"行程标题\",\n" +
    "  \"itinerary\": [\n" +
    "    {\n" +
    "      \"day\": 1,\n" +
    "      \"date\": \"YYYY-MM-DD\",\n" +
    "      \"activities\": [\n" +
    "        {\n" +
    "          \"name\": \"活动名称\",\n" +
    "          \"type\": \"attraction\",\n" +
    "          \"location\": {\n" +
    "            \"name\": \"地点名称\",\n" +
    "            \"address\": \"详细地址\",\n" +
    "            \"lat\": 纬度,\n" +
    "            \"lng\": 经度\n" +
    "          },\n" +
    "          \"duration\": 120,\n" +
    "          \"cost\": 100,\n" +
    "          \"time\": \"09:00\",\n" +
    "          \"description\": \"活动描述\"\n" +
    "        }\n" +
    "      ],\n" +
    "      \"accommodation\": {\n" +
    "        \"name\": \"酒店名称\",\n" +
    "        \"type\": \"酒店类型\",\n" +
    "        \"location\": {...},\n" +
    "        \"cost\": 500,\n" +
    "        \"checkIn\": \"15:00\",\n" +
    "        \"checkOut\": \"次日12:00\"\n" +
    "      },\n" +
    "      \"transportation\": [...],\n" +
    "      \"meals\": [...],\n" +
    "      \"daily_cost\": 1000\n" +
    "    }\n" +
    "  ],\n" +
    "  \"total_cost\": 5000\n" +
    "}"

  /**
   * The lines of the prompt that carry the request, up to the blank line before `OutputShape`;
   * `days` is the trip's day count.
   */
  function RequestLines(request: PlanningRequest, days: nat): seq<string>
  {
    [ "请为以下旅行需求生成一份详细的旅行计划：",
      "",
      "目的地：" + request.destination,
      "旅行日期：" + request.startDate + " 至 " + request.endDate
        + "（共" + NatToString(days) + "天）",
      "预算：" + IntToString(request.budget) + "元",
      "人数：" + IntToString(request.travelers) + "人",
      "偏好：" + JoinWith(request.preferences, '、'),
      SpecialRequirementsLine(request.specialRequirements),
      ""
    ]
  }

  /** The request lines followed, after a line break, by the instruction text `instructions`. */
  function PromptText(request: PlanningRequest, days: nat, instructions: string): string
  {
    JoinWith(RequestLines(request, days), '\n') + "\n" + instructions
  }

  /** `buildPrompt`: the request lines and the fixed instructions, separated by a line break. */
  function BuildPrompt(request: PlanningRequest): string
    requires ValidDates(request)
  {
    PromptText(request, CalculateDuration(request.startDate, request.endDate), OutputShape)
  }

  /** The request's free-text fields hold no line break. */
  predicate SingleLineFields(request: PlanningRequest)
  {
    && '\n' !in request.destination && '\n' !in request.startDate && '\n' !in request.endDate
    && (forall k :: 0 <= k < |request.preferences| ==> '\n' !in request.preferences[k])
    && (request.specialRequirements.Some? ==> '\n' !in request.specialRequirements.value)
  }

  /** A character found in none of the pieces and different from the separator is not in their join. */
  lemma {:induction false} JoinWithAvoids(parts: seq<string>, sep: char, c: char)
    requires c != sep
    requires forall k :: 0 <= k < |parts| ==> c !in parts[k]
    ensures c !in JoinWith(parts, sep)
  {
    if |parts| > 1 {
      JoinWithAvoids(parts[1..], sep, c);
    }
  }

  /** A rendered integer holds no line break. */
  lemma NumeralSingleLine(i: int)
    ensures '\n' !in IntToString(i)
  {
    var digits := NatToString(if i < 0 then -i else i);
    assert IntToString(i) == (if i < 0 then "-" else "") + digits;
    assert AllDigits(digits);
  }

  /** The date-range line of the prompt holds no line break. */
  lemma DateRangeLineSingle(request: PlanningRequest, days: nat)
    requires SingleLineFields(request)
    ensures '\n' !in "旅行日期：" + request.startDate + " 至 " + request.endDate + "（共" + NatToString(days) + "天）"
  {
    var count := NatToString(days);
    assert AllDigits(count);
    var a := "旅行日期：" + request.startDate;
    var b := a + " 至 " + request.endDate;
    var c := b + "（共" + count;
    assert '\n' !in a;
    assert '\n' !in b;
    assert '\n' !in c;
  }

  /** The budget and travelers lines of the prompt hold no line break. */
  lemma NumberLinesSingle(request: PlanningRequest)
    ensures '\n' !in "预算：" + IntToString(request.budget) + "元"
    ensures '\n' !in "人数：" + IntToString(request.travelers) + "人"
  {
    NumeralSingleLine(request.budget);
    NumeralSingleLine(request.travelers);
  }

  /** The opening line and the destination line of the prompt hold no line break. */
  lemma HeadLinesSingle(request: PlanningRequest)
    requires SingleLineFields(request)
    ensures '\n' !in "请为以下旅行需求生成一份详细的旅行计划："
    ensures '\n' !in "目的地：" + request.destination
  {
    var head := "目的地：";
    assert '\n' !in head;
  }

  /** The preferences and special-requirements lines of the prompt hold no line break. */
  lemma WishLinesSingle(request: PlanningRequest)
    requires SingleLineFields(request)
    ensures '\n' !in "偏好：" + JoinWith(request.preferences, '、')
    ensures '\n' !in SpecialRequirementsLine(request.specialRequirements)
  {
    JoinWithAvoids(request.preferences, '、', '\n');
  }

  /** Nine lines none of which holds a line break. */
  lemma NineLinesSingle(lines: seq<string>, l0: string, l1: string, l2: string, l3: string, l4: string, l5: string, l6: string, l7: string, l8: string)
    requires lines == [l0, l1, l2, l3, l4, l5, l6, l7, l8]
    requires '\n' !in l0 && '\n' !in l1 && '\n' !in l2 && '\n' !in l3 && '\n' !in l4
    requires '\n' !in l5 && '\n' !in l6 && '\n' !in l7 && '\n' !in l8
    ensures forall k :: 0 <= k < |lines| ==> '\n' !in lines[k]
  {
  }

  /** No line of the request part of the prompt holds a line break. */
  lemma RequestLinesSingle(request: PlanningRequest, days: nat)
    requires SingleLineFields(request)
    ensures forall k :: 0 <= k < |RequestLines(request, days)| ==> '\n' !in RequestLines(request, days)[k]
  {
    HeadLinesSingle(request);
    DateRangeLineSingle(request, days);
    NumberLinesSingle(request);
    WishLinesSingle(request);
    NineLinesSingle(RequestLines(request, days),
      "请为以下旅行需求生成一份详细的旅行计划：",
      "",
      "目的地：" + request.destination,
      "旅行日期：" + request.startDate + " 至 " + request.endDate + "（共" + NatToString(days) + "天）",
      "预算：" + IntToString(request.budget) + "元",
      "人数：" + IntToString(request.travelers) + "人",
      "偏好：" + JoinWith(request.preferences, '、'),
      SpecialRequirementsLine(request.specialRequirements),
      "");
  }

  /**
   * Read back line by line, the prompt is the nine request lines (destination, date range with
   * the day count, budget, travelers, preferences joined by `、`, special requirements) followed
   * by the lines of the instructions.
   */
  lemma PromptLayout(request: PlanningRequest, days: nat, instructions: string)
    requires SingleLineFields(request)
    ensures var lines := SplitOn(PromptText(request, days, instructions), '\n');
      && |lines| > 9
      && lines[..9] == RequestLines(request, days)
      && lines[9..] == SplitOn(instructions, '\n')
  {
    var head := RequestLines(request, days);
    RequestLinesSingle(request, days);
    SplitAfterJoin(head, '\n', instructions);
    var lines := head + SplitOn(instructions, '\n');
    assert lines[..9] == head;
    assert lines[9..] == SplitOn(instructions, '\n');
  }

  /** With at least one preference and none holding `、`, the prompt's preference line splits back into them. */
  lemma PreferencesRecoverable(request: PlanningRequest, days: nat, instructions: string)
    requires SingleLineFields(request)
    requires |request.preferences| >= 1
    requires forall k :: 0 <= k < |request.preferences| ==> '、' !in request.preferences[k]
    ensures var lines := SplitOn(PromptText(request, days, instructions), '\n');
      && |lines| > 6 && |lines[6]| >= |"偏好："|
      && SplitOn(lines[6][|"偏好："|..], '、') == request.preferences
  {
    PromptLayout(request, days, instructions);
    var line := SplitOn(PromptText(request, days, instructions), '\n')[6];
    assert line == RequestLines(request, days)[6];
    assert line[|"偏好："|..] == JoinWith(request.preferences, '、');
    SplitJoin(request.preferences, '、');
  }

  /**
   * `buildPrompt` read back line by line: the nine request lines, whose date-range line states the
   * day count `calculateDuration` gives, followed by the lines of the fixed instructions.
   */
  lemma BuildPromptLines(request: PlanningRequest)
    requires ValidDates(request) && SingleLineFields(request)
    ensures var days := CalculateDuration(request.startDate, request.endDate);
      var lines := SplitOn(BuildPrompt(request), '\n');
      && |lines| > 9
      && lines[..9] == RequestLines(request, days)
      && lines[3] == "旅行日期：" + request.startDate + " 至 " + request.endDate + "（共" + NatToString(days) + "天）"
      && lines[9..] == SplitOn(OutputShape, '\n')
  {
    var days := CalculateDuration(request.startDate, request.endDate);
    PromptLayout(request, days, OutputShape);
    DateRangeLine(request, days);
    var lines := SplitOn(BuildPrompt(request), '\n');
    assert lines[3] == lines[..9][3];
  }

  /** The fourth request line states the dates and the day count. */
  lemma DateRangeLine(request: PlanningRequest, days: nat)
    ensures RequestLines(request, days)[3] ==
      "旅行日期：" + request.startDate + " 至 " + request.endDate + "（共" + NatToString(days) + "天）"
  {
  }

  // ---------------------------------------------------------------- fallback plan

  /** `Math.floor(budget / duration)`: the largest share that `duration` days can each receive. */
  function DailyBudget(budget: int, duration: nat): (daily: int)
    requires duration >= 1
    ensures daily * duration <= budget < daily * duration + duration
  {
    budget / duration
  }

  function ActivitiesCost(activities: seq<Activity>): real
  {
    if activities == [] then 0.0 else activities[0].cost + ActivitiesCost(activities[1..])
  }

  function MealsCost(meals: seq<Meal>): real
  {
    if meals == [] then 0.0 else meals[0].cost + MealsCost(meals[1..])
  }

  function TransportCost(legs: seq<Transportation>): real
  {
    if legs == [] then 0.0 else legs[0].cost + TransportCost(legs[1..])
  }

  /** What a day's activities, stay and meals cost together (transport is counted apart). */
  function DaySpending(day: DayItinerary): real
  {
    ActivitiesCost(day.activities)
      + (match day.accommodation case Some(stay) => stay.cost case None => 0.0)
      + MealsCost(day.meals)
  }

  /** The identifier `act_<i>_1` of the fallback activity of day `i` (from 0). */
  function ActivityId(i: nat): string
  {
    "act_" + NatToString(i) + "_1"
  }

  /** Different days get different activity identifiers. */
  lemma ActivityIdInjective(i: nat, j: nat)
    requires i != j
    ensures ActivityId(i) != ActivityId(j)
  {
    var a, b := NatToString(i), NatToString(j);
    if |a| == |b| {
      assert ActivityId(i)[4..4 + |a|] == a;
      assert ActivityId(j)[4..4 + |b|] == b;
    } else {
      assert |ActivityId(i)| != |ActivityId(j)|;
    }
  }

  function FallbackLocation(destination: string): Location
  {
    Location(destination, destination, 0.0, 0.0)
  }

  /**
   * Day `i` (from 0) of a fallback plan of `duration` days starting on day number `firstDay`.
   * Activity, stay and meals take 30%, 40% and twice 15% of the daily budget, which adds up to
   * the whole of it; the last day has no stay and spends 60%; the subway leg is a flat 20.
   */
  function FallbackDay(destination: string, firstDay: nat, i: nat, duration: nat, daily: int): (d: DayItinerary)
    requires i < duration
    ensures DaySpending(d) == if i < duration - 1 then daily as real else 0.6 * daily as real
    ensures TransportCost(d.transportation) == 20.0
  {
    var place := FallbackLocation(destination);
    var share := daily as real;
    var activities := [
      Activity(
        id := ActivityId(i),
        name := destination + "景点游览",
        kind := Attraction,
        location := place,
        duration := 180,
        cost := share * 0.3,
        time := "09:00",
        description := Some("探索" + destination + "的著名景点"))];
    var stay :=
      if i < duration - 1 then
        Some(Accommodation(destination + "酒店", "标准酒店", place, share * 0.4, "15:00", "次日12:00"))
      else None;
    var legs := [Transportation(Subway, "住宿地", "景点", 20.0, 30, "08:30")];
    var meals := [
      Meal(Lunch, "当地餐厅", place, share * 0.15, "12:00"),
      Meal(Dinner, "特色餐厅", place, share * 0.15, "18:00")];
    assert ActivitiesCost(activities) == share * 0.3 by {
      assert activities[1..] == [];
    }
    assert MealsCost(meals) == share * 0.3 by {
      assert meals[1..][1..] == [];
      assert MealsCost(meals[1..]) == share * 0.15;
    }
    assert TransportCost(legs) == 20.0 by {
      assert legs[1..] == [];
    }
    DayItinerary(i + 1, FormatIsoDate(firstDay + i), activities, stay, legs, meals, daily)
  }

  /**
   * How a fallback day splits its share: one activity at 30%, a stay at 40% on every day but the
   * last, lunch and dinner at 15% each, and a single subway leg costing 20.
   */
  lemma FallbackDaySplit(destination: string, firstDay: nat, i: nat, duration: nat, daily: int)
    requires i < duration
    ensures var d := FallbackDay(destination, firstDay, i, duration, daily);
      && |d.activities| == 1 && d.activities[0].id == ActivityId(i) && d.activities[0].cost == 0.3 * daily as real
      && (d.accommodation.Some? <==> i < duration - 1)
      && (d.accommodation.Some? ==> d.accommodation.value.cost == 0.4 * daily as real)
      && |d.meals| == 2 && d.meals[0].kind == Lunch && d.meals[1].kind == Dinner
      && d.meals[0].cost == 0.15 * daily as real && d.meals[1].cost == 0.15 * daily as real
      && |d.transportation| == 1 && d.transportation[0].mode == Subway && d.transportation[0].cost == 20.0
  {
  }

  /** The plan `createFallbackPlan` builds from a request, with no remote call. */
  function Fallback(request: PlanningRequest): TravelPlan
    requires ValidDates(request)
  {
    var duration := CalculateDuration(request.startDate, request.endDate);
    var daily := DailyBudget(request.budget, duration);
    var firstDay := ParseIsoDate(request.startDate).value;
    TravelPlan(
      title := request.destination + " " + NatToString(duration) + "日游",
      destination := request.destination,
      startDate := request.startDate,
      endDate := request.endDate,
      budget := request.budget,
      travelers := request.travelers,
      preferences := request.preferences,
      itinerary := seq(duration, i requires 0 <= i < duration => FallbackDay(request.destination, firstDay, i, duration, daily)),
      totalCost := request.budget as real * 0.9)
  }

  /** `createFallbackPlan`: one day pushed per loop turn, then the root record. */
  method CreateFallbackPlan(request: PlanningRequest) returns (plan: TravelPlan)
    requires ValidDates(request)
    ensures plan == Fallback(request)
  {
    var duration := CalculateDuration(request.startDate, request.endDate);
    var dailyBudget := DailyBudget(request.budget, duration);
    var firstDay := ParseIsoDate(request.startDate).value;
    ghost var target := Fallback(request).itinerary;
    var itinerary: seq<DayItinerary> := [];
    for i := 0 to duration
      invariant itinerary == target[..i]
    {
      var day := FallbackDay(request.destination, firstDay, i, duration, dailyBudget);
      assert day == target[i];
      PrefixStep(target, i);
      itinerary := itinerary + [day];
    }
    assert target[..duration] == target;
    plan := TravelPlan(
      title := request.destination + " " + NatToString(duration) + "日游",
      destination := request.destination,
      startDate := request.startDate,
      endDate := request.endDate,
      budget := request.budget,
      travelers := request.travelers,
      preferences := request.preferences,
      itinerary := itinerary,
      totalCost := request.budget as real * 0.9);
  }

  /**
   * The fallback itinerary has one entry per day of the trip: entry `i` is day `i + 1`, dated
   * `i` days after the start, with a stay on every day but the last, and it is given the same
   * daily share `floor(budget / days)`.
   */
  lemma FallbackItinerary(request: PlanningRequest)
    requires ValidDates(request)
    ensures var plan := Fallback(request);
      var n := CalculateDuration(request.startDate, request.endDate);
      var first := ParseIsoDate(request.startDate).value;
      && |plan.itinerary| == n
      && forall i :: 0 <= i < n ==>
           && plan.itinerary[i].day == i + 1
           && plan.itinerary[i].date == FormatIsoDate(first + i)
           && (plan.itinerary[i].accommodation.Some? <==> i < n - 1)
           && plan.itinerary[i].dailyCost == DailyBudget(request.budget, n)
           && |plan.itinerary[i].activities| == 1
           && plan.itinerary[i].activities[0].id == ActivityId(i)
  {
  }

  /** The fallback title is the destination, a space, the day count in decimal and `日游`. */
  lemma FallbackTitle(request: PlanningRequest)
    requires ValidDates(request)
    ensures var t, dest := Fallback(request).title, request.destination;
      && |t| >= |dest| + 4 && t[..|dest|] == dest && t[|dest|] == ' ' && t[|t| - 2..] == "日游"
      && var count := t[|dest| + 1..|t| - 2];
         |count| >= 1 && AllDigits(count) && count[0] != '0'
         && ParseDigits(count) == CalculateDuration(request.startDate, request.endDate)
  {
    var t, dest := Fallback(request).title, request.destination;
    var count := NatToString(CalculateDuration(request.startDate, request.endDate));
    assert t == dest + " " + count + "日游";
    assert t[..|dest|] == dest;
    assert t[|dest| + 1..|t| - 2] == count;
  }

  /** The first fallback day carries the request's start date text. */
  lemma FallbackStartDate(request: PlanningRequest)
    requires ValidDates(request)
    ensures Fallback(request).itinerary[0].date == request.startDate
  {
    FormatParseIsoDate(request.startDate);
  }

  /**
   * When the start does not follow the end, the last fallback day carries the end date text and
   * every day lies before year 10000, so each date text reads back as its day number
   * (`ParseFormatIsoDate`).
   */
  lemma FallbackEndDate(request: PlanningRequest)
    requires ValidDates(request)
    requires ParseIsoDate(request.startDate).value <= ParseIsoDate(request.endDate).value
    ensures var plan := Fallback(request);
      && plan.itinerary[|plan.itinerary| - 1].date == request.endDate
      && ParseIsoDate(request.startDate).value + |plan.itinerary| <= FirstFiveDigitYearDay()
  {
    FormatParseIsoDate(request.endDate);
    FallbackItinerary(request);
    var n := CalculateDuration(request.startDate, request.endDate);
    var first, last := ParseIsoDate(request.startDate).value, ParseIsoDate(request.endDate).value;
    assert first + (n - 1) == last;
    assert Fallback(request).itinerary[n - 1].date == FormatIsoDate(last);
  }

  /** Sum of `DaySpending` over a sequence of days. */
  function ItinerarySpending(days: seq<DayItinerary>): real
  {
    if days == [] then 0.0 else DaySpending(days[0]) + ItinerarySpending(days[1..])
  }

  /** Days spending a full share each, except a last day spending 60% of one, spend all shares but 40% of one. */
  lemma {:induction false} SpendingOfShares(days: seq<DayItinerary>, daily: int)
    requires |days| >= 1
    requires forall k :: 0 <= k < |days| - 1 ==> DaySpending(days[k]) == daily as real
    requires DaySpending(days[|days| - 1]) == 0.6 * daily as real
    ensures ItinerarySpending(days) == (|days| * daily) as real - 0.4 * daily as real
  {
    if |days| > 1 {
      SpendingOfShares(days[1..], daily);
      assert |days| * daily == (|days| - 1) * daily + daily;
    }
  }

  lemma {:induction false} MulNonPositive(a: int, n: nat)
    requires a <= 0
    ensures a * n <= 0
  {
    if n > 0 {
      MulNonPositive(a, n - 1);
      assert a * n == a * (n - 1) + a;
    }
  }

  /** A share that, taken `n` times, comes within `n` of a non-negative budget is not negative. */
  lemma NonNegativeShare(n: nat, daily: int, budget: int)
    requires n >= 1 && 0 <= budget
    requires daily * n <= budget < daily * n + n
    ensures daily >= 0
  {
    if daily < 0 {
      MulNonPositive(daily + 1, n);
    }
  }

  /** Days spending the shares of `SpendingOfShares`, with shares that fit a non-negative budget, do not overspend it. */
  lemma SharesWithinBudget(days: seq<DayItinerary>, daily: int, budget: int)
    requires |days| >= 1 && 0 <= budget
    requires daily * |days| <= budget < daily * |days| + |days|
    requires forall k :: 0 <= k < |days| - 1 ==> DaySpending(days[k]) == daily as real
    requires DaySpending(days[|days| - 1]) == 0.6 * daily as real
    ensures ItinerarySpending(days) <= budget as real
  {
    NonNegativeShare(|days|, daily, budget);
    SpendingOfShares(days, daily);
  }

  /**
   * The fallback days' shares never exceed the budget; every day but the last spends its whole
   * share on activity, stay and meals and the last spends 60% of it; the estimated total is 90%
   * of the budget.
   */
  lemma FallbackShares(request: PlanningRequest)
    requires ValidDates(request)
    ensures var plan := Fallback(request);
      var n := |plan.itinerary|;
      var daily := DailyBudget(request.budget, n);
      && daily * n <= request.budget < daily * n + n
      && (forall k :: 0 <= k < n - 1 ==> DaySpending(plan.itinerary[k]) == daily as real)
      && DaySpending(plan.itinerary[n - 1]) == 0.6 * daily as real
      && plan.totalCost == 0.9 * request.budget as real
  {
  }

  /** A fallback plan never spends more than a non-negative budget on activities, stays and meals. */
  lemma FallbackWithinBudget(request: PlanningRequest)
    requires ValidDates(request) && request.budget >= 0
    ensures ItinerarySpending(Fallback(request).itinerary) <= request.budget as real
  {
    var days := Fallback(request).itinerary;
    FallbackShares(request);
    SharesWithinBudget(days, DailyBudget(request.budget, |days|), request.budget);
  }

  // ---------------------------------------------------------------- reply normaliser

  /**
   * `content.match(/\{[\s\S]*\}/)`: the text from the first `{` to the last `}`, present exactly
   * when some `{` is followed later by a `}`.
   */
  function ExtractJsonRegion(content: string): (region: Option<string>)
    ensures region.Some? <==> exists i, j :: 0 <= i < j < |content| && content[i] == '{' && content[j] == '}'
    ensures region.Some? ==> exists i, j ::
      && 0 <= i < j < |content| && region.value == content[i..j + 1]
      && content[i] == '{' && content[j] == '}'
      && '{' !in content[..i] && '}' !in content[j + 1..]
  {
    match (IndexOf(content, '{'), LastIndexOf(content, '}'))
    case (Some(i), Some(j)) =>
      if i < j then Some(content[i..j + 1])
      else
        None
    case _ => None
  }

  /** The member names `parseAIResponse` writes from the request over the model's object. */
  const MetadataKeys: set<string> := {"destination", "start_date", "end_date", "budget", "travelers", "preferences"}

  /** A list of strings as a JSON array. */
  function StringArray(items: seq<string>): Json
  {
    JArray(seq(|items|, k requires 0 <= k < |items| => JString(items[k])))
  }

  /** The object holds the request's destination, dates, budget, travelers and preferences. */
  predicate CarriesRequestFields(fields: map<string, Json>, request: PlanningRequest)
  {
    && MetadataKeys <= fields.Keys
    && fields["destination"] == JString(request.destination)
    && fields["start_date"] == JString(request.startDate)
    && fields["end_date"] == JString(request.endDate)
    && fields["budget"] == JNumber(request.budget as real)
    && fields["travelers"] == JNumber(request.travelers as real)
    && fields["preferences"] == StringArray(request.preferences)
  }

  /**
   * `{...parsed, destination, start_date, end_date, budget, travelers, preferences}`: the model's
   * object with the request's six fields written over it and every other member kept.
   */
  function MergeMetadata(parsed: map<string, Json>, request: PlanningRequest): (merged: map<string, Json>)
    ensures merged.Keys == parsed.Keys + MetadataKeys
    ensures forall k :: k in parsed && k !in MetadataKeys ==> merged[k] == parsed[k]
    ensures CarriesRequestFields(merged, request)
  {
    parsed + map[
      "destination" := JString(request.destination),
      "start_date" := JString(request.startDate),
      "end_date" := JString(request.endDate),
      "budget" := JNumber(request.budget as real),
      "travelers" := JNumber(request.travelers as real),
      "preferences" := StringArray(request.preferences)]
  }

  /** Stamping the metadata a second time changes nothing. */
  lemma MergeMetadataIdempotent(parsed: map<string, Json>, request: PlanningRequest)
    ensures MergeMetadata(MergeMetadata(parsed, request), request) == MergeMetadata(parsed, request)
  {
    var once := MergeMetadata(parsed, request);
    var twice := MergeMetadata(once, request);
    assert forall k :: k in twice ==> twice[k] == once[k];
  }

  /** A plan as the generator returns it: the model's object with metadata, or the fallback plan. */
  datatype GeneratedPlan = Parsed(fields: map<string, Json>) | Synthesized(plan: TravelPlan)

  /** The plan echoes the request's destination, dates, budget, travelers and preferences. */
  predicate EchoesRequest(generated: GeneratedPlan, request: PlanningRequest)
  {
    match generated
    case Parsed(fields) => CarriesRequestFields(fields, request)
    case Synthesized(plan) =>
      && plan.destination == request.destination
      && plan.startDate == request.startDate && plan.endDate == request.endDate
      && plan.budget == request.budget && plan.travelers == request.travelers
      && plan.preferences == request.preferences
  }

  /**
   * `parseAIResponse`: the fallback plan when the reply holds no `{...}` region or the region is
   * not valid JSON, and otherwise the parsed object with the request's metadata over it; it never
   * throws (`JSON.parse` is the parameter `parseJson`).
   */
  function ParseAIResponse(content: string, request: PlanningRequest, parseJson: string -> Option<map<string, Json>>): (generated: GeneratedPlan)
    requires ValidDates(request)
    ensures EchoesRequest(generated, request)
    ensures generated.Synthesized? <==> ExtractJsonRegion(content).None? || parseJson(ExtractJsonRegion(content).value).None?
    ensures generated.Synthesized? ==> generated.plan == Fallback(request)
    ensures generated.Parsed? ==> generated.fields == MergeMetadata(parseJson(ExtractJsonRegion(content).value).value, request)
  {
    match ExtractJsonRegion(content)
    case None => Synthesized(Fallback(request))
    case Some(region) =>
      match parseJson(region)
      case None => Synthesized(Fallback(request))
      case Some(parsed) => Parsed(MergeMetadata(parsed, request))
  }

  /** The match is greedy: it runs from the first `{` to the last `}`, across any text between objects. */
  lemma ExtractIsGreedy()
    ensures ExtractJsonRegion("x{a}y{b}z") == Some("{a}y{b}")
  {
    var content := "x{a}y{b}z";
    assert IndexOf(content, '{') == Some(1) by {
      assert content[0] == 'x' && content[1] == '{';
    }
    assert LastIndexOf(content, '}') == Some(7) by {
      assert content[8] == 'z' && content[7] == '}';
      assert content[..8][7] == '}';
    }
    assert content[1..8] == "{a}y{b}";
  }

  // ---------------------------------------------------------------- remote call

  const DashScopeUrl: string := "https://dashscope.aliyuncs.com/api/v1/services/aigc/text-generation/generation"

  const SystemInstruction: string := "你是一个专业的旅行规划助手，能够根据用户需求生成详细的旅行计划，包括交通、住宿、景点、餐厅和费用预算。请以 JSON 格式返回结果。"

  const GenerationFailed: string := "Failed to generate travel plan"

  /** The one POST the service issues: endpoint, model, the two messages, result format and bearer header. */
  datatype GenerationCall = GenerationCall(
    url: string,
    model: string,
    systemMessage: string,
    userMessage: string,
    resultFormat: string,
    authorization: string)

  /** The request `generateTravelPlan` posts for a key and a prompt. */
  function DashScopeCall(apiKey: string, prompt: string): GenerationCall
  {
    GenerationCall(DashScopeUrl, "qwen-max", SystemInstruction, prompt, "message", "Bearer " + apiKey)
  }

  /**
   * The call has the fixed endpoint, model, system message and result format, the prompt as the
   * user message, and a bearer header that carries exactly the key.
   */
  lemma DashScopeCallFields(apiKey: string, prompt: string)
    ensures var call := DashScopeCall(apiKey, prompt);
      && call.url == DashScopeUrl && call.model == "qwen-max"
      && call.systemMessage == SystemInstruction && call.resultFormat == "message"
      && call.userMessage == prompt
      && |call.authorization| == |apiKey| + 7
      && call.authorization[..7] == "Bearer " && call.authorization[7..] == apiKey
  {
    var call := DashScopeCall(apiKey, prompt);
    assert call.authorization[7..] == apiKey;
  }

  /** Different keys or prompts make different calls: the remote sees both exactly. */
  lemma DashScopeCallInjective(key1: string, prompt1: string, key2: string, prompt2: string)
    requires DashScopeCall(key1, prompt1) == DashScopeCall(key2, prompt2)
    ensures key1 == key2 && prompt1 == prompt2
  {
    DashScopeCallFields(key1, prompt1);
    DashScopeCallFields(key2, prompt2);
  }

  /** What the remote call yields: a transport failure (network, HTTP status, timeout) or a JSON body. */
  datatype RemoteReply = NetworkFailure | Response(data: Json)

  /** What a JavaScript property read yields: a value, `undefined`, or a thrown `TypeError`. */
  datatype Access = Found(value: Json) | Undefined | Thrown

  /** `target.key`: reading from `undefined` or `null` throws; a missing member is `undefined`. */
  function Member(target: Access, key: string): Access
  {
    match target
    case Thrown => Thrown
    case Undefined => Thrown
    case Found(v) =>
      match v
      case JNull => Thrown
      case JObject(fields) => if key in fields then Found(fields[key]) else Undefined
      case _ => Undefined
  }

  /** `target[index]`: array element, object member named by the index, or one-character string. */
  function Element(target: Access, index: nat): Access
  {
    match target
    case Thrown => Thrown
    case Undefined => Thrown
    case Found(v) =>
      match v
      case JNull => Thrown
      case JArray(items) => if index < |items| then Found(items[index]) else Undefined
      case JObject(fields) => Member(target, NatToString(index))
      case JString(s) => if index < |s| then Found(JString([s[index]])) else Undefined
      case _ => Undefined
  }

  /** `response.data.output.choices[0].message.content`. */
  function ReplyContent(data: Json): Access
  {
    Member(Member(Element(Member(Member(Found(data), "output"), "choices"), 0), "message"), "content")
  }

  /**
   * Reading the envelope throws unless the body is an object with an `output` object holding
   * `choices`. When `choices` is an array, an empty one or a first choice without `message` throws,
   * and a first choice with a `message` object yields that message's `content`, or `undefined`
   * when it has none.
   */
  lemma ReplyContentShape(data: Json)
    ensures ReplyContent(data) != Thrown ==>
      data.JObject? && "output" in data.fields && data.fields["output"].JObject?
      && "choices" in data.fields["output"].fields
    ensures
      && data.JObject? && "output" in data.fields && data.fields["output"].JObject?
      && "choices" in data.fields["output"].fields && data.fields["output"].fields["choices"].JArray?
      ==>
      var items := data.fields["output"].fields["choices"].items;
      && (|items| == 0 ==> ReplyContent(data) == Thrown)
      && (|items| > 0 && items[0].JObject? && "message" !in items[0].fields ==> ReplyContent(data) == Thrown)
      && (|items| > 0 && items[0].JObject? && "message" in items[0].fields && items[0].fields["message"].JObject? ==>
            var message := items[0].fields["message"].fields;
            ReplyContent(data) == if "content" in message then Found(message["content"]) else Undefined)
  {
  }

  /** The envelope of a well-formed reply yields its message text. */
  lemma WellFormedEnvelope(text: string)
    ensures ReplyContent(JObject(map["output" := JObject(map["choices" := JArray([
              JObject(map["message" := JObject(map["content" := JString(text)])])])])]))
            == Found(JString(text))
  {
  }

  /** A body without `output`, or whose `choices` is empty, makes the envelope read throw. */
  lemma MalformedEnvelopeThrows(data: Json)
    requires || (data.JObject? && "output" !in data.fields)
             || (data.JObject? && "output" in data.fields && data.fields["output"].JObject?
                 && "choices" in data.fields["output"].fields
                 && data.fields["output"].fields["choices"] == JArray([]))
    ensures ReplyContent(data) == Thrown
  {
  }

  /** The itinerary generator, holding the caller's API key; the constructor does not check the key. */
  class AIService {
    const apiKey: string

    constructor (apiKey: string)
      ensures this.apiKey == apiKey
    {
      this.apiKey := apiKey;
    }

    /**
     * `generateTravelPlan`: one call with the built prompt and this key's bearer header. A failed
     * call or an envelope read that throws is reported as the one generic error; reply text goes
     * through `parseAIResponse`; a reply whose content is not text makes `content.match` throw
     * inside `parseAIResponse`, which falls back. Every plan returned echoes the request.
     */
    method GenerateTravelPlan(
      request: PlanningRequest,
      remote: GenerationCall -> RemoteReply,
      parseJson: string -> Option<map<string, Json>>)
      returns (result: Result<GeneratedPlan, string>)
      requires ValidDates(request)
      ensures var reply := remote(DashScopeCall(apiKey, BuildPrompt(request)));
        && (result.Failure? <==> reply.NetworkFailure? || ReplyContent(reply.data).Thrown?)
        && (result.Failure? ==> result.error == GenerationFailed)
        && (result.Success? ==> EchoesRequest(result.value, request))
        && (reply.Response? && ReplyContent(reply.data).Found? && ReplyContent(reply.data).value.JString? ==>
              result == Success(ParseAIResponse(ReplyContent(reply.data).value.s, request, parseJson)))
        && (reply.Response? && ReplyContent(reply.data).Undefined? ==> result == Success(Synthesized(Fallback(request))))
        && (reply.Response? && ReplyContent(reply.data).Found? && !ReplyContent(reply.data).value.JString? ==>
              result == Success(Synthesized(Fallback(request))))
    {
      var prompt := BuildPrompt(request);
      var reply := remote(DashScopeCall(apiKey, prompt));
      match reply {
        case NetworkFailure =>
          result := Failure(GenerationFailed);
        case Response(data) =>
          var content := ReplyContent(data);
          match content {
            case Thrown =>
              result := Failure(GenerationFailed);
            case Found(JString(text)) =>
              result := Success(ParseAIResponse(text, request, parseJson));
            case _ =>
              var plan := CreateFallbackPlan(request);
              result := Success(Synthesized(plan));
          }
      }
    }
  }
}
