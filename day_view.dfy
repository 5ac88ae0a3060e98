/**
 * The day view of the dashboard page (src/pages/Dashboard.jsx): which day
 * is selected first, the featured, secondary and other meals of the day,
 * the total prep time summed from the meals' free-text estimates, and the
 * weekday offset behind the day numbers.
 */
module DayView {
  import opened Common
  import opened Text
  import opened Domain

  /**
   * The initially selected day: 0 for an empty plan, else the first day
   * whose name equals today's weekday ignoring case, else 0.
   */
  function InitialDayIndex(plans: seq<DailyPlan>, today: string): (r: nat)
    ensures |plans| == 0 ==> r == 0
    ensures |plans| > 0 ==> r < |plans|
    ensures r > 0 ==> EqualsIgnoreCase(plans[r].day, today)
    ensures forall j :: 0 <= j < r ==> !EqualsIgnoreCase(plans[j].day, today)
    ensures |plans| > 0 && r == 0 ==>
              (EqualsIgnoreCase(plans[0].day, today) || forall j :: 0 <= j < |plans| ==> !EqualsIgnoreCase(plans[j].day, today))
  {
    if |plans| == 0 then 0
    else
      var k := FindFirst(plans, (d: DailyPlan) => EqualsIgnoreCase(d.day, today));
      if k >= 0 then k else 0
  }

  /** `m.type?.toLowerCase() === t`. */
  predicate HasType(m: PlannedMeal, t: string)
  {
    m.mealType.Some? && Lower(m.mealType.value) == t
  }

  /** `meals.find(m => m.type?.toLowerCase() === t)`. */
  function FirstOfType(meals: seq<PlannedMeal>, t: string): (r: Option<PlannedMeal>)
    ensures r.None? <==> forall i :: 0 <= i < |meals| ==> !HasType(meals[i], t)
    ensures r.Some? ==> exists i :: 0 <= i < |meals| && meals[i] == r.value && HasType(meals[i], t)
                                    && forall j :: 0 <= j < i ==> !HasType(meals[j], t)
  {
    var k := FindFirst(meals, (m: PlannedMeal) => HasType(m, t));
    if k < 0 then None else Some(meals[k])
  }

  /** The featured card, `dinnerMeal || meals[0]`: the first dinner, else the first meal. */
  function FeaturedMeal(meals: seq<PlannedMeal>): (r: Option<PlannedMeal>)
    ensures r.None? <==> |meals| == 0
    ensures r.Some? ==> r.value in meals
    ensures FirstOfType(meals, "dinner").Some? ==> r == FirstOfType(meals, "dinner")
    ensures FirstOfType(meals, "dinner").None? && |meals| > 0 ==> r == Some(meals[0])
  {
    var dinner := FirstOfType(meals, "dinner");
    if dinner.Some? then dinner else if |meals| > 0 then Some(meals[0]) else None
  }

  /** `[lunchMeal, breakfastMeal].filter(Boolean)`: the first lunch and the first breakfast, those that exist. */
  function SecondaryMeals(meals: seq<PlannedMeal>): (r: seq<PlannedMeal>)
    ensures |r| <= 2
    ensures forall i :: 0 <= i < |r| ==> r[i] in meals && (HasType(r[i], "lunch") || HasType(r[i], "breakfast"))
    ensures |r| == (if FirstOfType(meals, "lunch").Some? then 1 else 0) + (if FirstOfType(meals, "breakfast").Some? then 1 else 0)
    ensures FirstOfType(meals, "lunch").Some? ==> r[0] == FirstOfType(meals, "lunch").value
    ensures FirstOfType(meals, "breakfast").Some? ==> r[|r| - 1] == FirstOfType(meals, "breakfast").value
  {
    var lunch := FirstOfType(meals, "lunch");
    var breakfast := FirstOfType(meals, "breakfast");
    (if lunch.Some? then [lunch.value] else []) + (if breakfast.Some? then [breakfast.value] else [])
  }

  /** The lower-cased type is one of breakfast, lunch and dinner. */
  predicate IsMainType(m: PlannedMeal)
  {
    HasType(m, "breakfast") || HasType(m, "lunch") || HasType(m, "dinner")
  }

  /** The "other meals" list: the meals whose type is none of the three, in their order. */
  function OtherMeals(meals: seq<PlannedMeal>): (r: seq<PlannedMeal>)
    ensures IsSubsequence(r, meals)
    ensures forall i :: 0 <= i < |r| ==> !IsMainType(r[i]) && r[i] in meals
    ensures forall i :: 0 <= i < |meals| && !IsMainType(meals[i]) ==> meals[i] in r
  {
    Filter(meals, (m: PlannedMeal) => !IsMainType(m))
  }

  /**
   * A day whose meals carry none of the three types shows its first meal
   * both as the featured card and among the other meals.
   */
  lemma {:induction false} FeaturedFallbackAlsoOther(meals: seq<PlannedMeal>)
    requires |meals| > 0 && forall i :: 0 <= i < |meals| ==> !IsMainType(meals[i])
    ensures FeaturedMeal(meals) == Some(meals[0]) && meals[0] in OtherMeals(meals)
  {
    assert !HasType(meals[0], "dinner");
  }

  /** The longest prefix of `s` made of decimal digits. */
  function DigitRun(s: string): (r: string)
    ensures |r| <= |s| && r == s[..|r|]
    ensures forall i :: 0 <= i < |r| ==> IsDigit(r[i])
    ensures |r| < |s| ==> !IsDigit(s[|r|])
  {
    if |s| > 0 && IsDigit(s[0]) then [s[0]] + DigitRun(s[1..]) else ""
  }

  /** `s.match(/(\d+)/)?.[1]`: the first maximal run of digits in `s`. */
  function FirstDigitRun(s: string): (r: Option<string>)
    ensures r.None? <==> forall i :: 0 <= i < |s| ==> !IsDigit(s[i])
    ensures r.Some? ==> |r.value| > 0 && forall i :: 0 <= i < |r.value| ==> IsDigit(r.value[i])
    ensures r.Some? ==> exists k :: OccursAt(s, r.value, k)
                                   && (forall i :: 0 <= i < k ==> !IsDigit(s[i]))
                                   && (k + |r.value| == |s| || !IsDigit(s[k + |r.value|]))
  {
    var k := FindFirst(s, IsDigit);
    if k < 0 then None
    else
      DigitRunAt(s, k);
      Some(DigitRun(s[k..]))
  }

  /** The digit run starting at the first digit of `s` is a non-empty maximal run right there. */
  lemma {:induction false} DigitRunAt(s: string, k: nat)
    requires k < |s| && IsDigit(s[k]) && forall j :: 0 <= j < k ==> !IsDigit(s[j])
    ensures var run := DigitRun(s[k..]);
            |run| > 0
            && exists k' :: OccursAt(s, run, k')
                            && (forall i :: 0 <= i < k' ==> !IsDigit(s[i]))
                            && (k' + |run| == |s| || !IsDigit(s[k' + |run|]))
  {
    var run := DigitRun(s[k..]);
    assert s[k..][0] == s[k];
    assert s[k..][..|run|] == s[k..k + |run|];
    assert OccursAt(s, run, k);
    assert |run| < |s[k..]| ==> s[k..][|run|] == s[k + |run|];
  }

  /** The minutes a meal adds: the value of the first digit run of its estimate, or 0. */
  function MealMinutes(m: PlannedMeal): nat
  {
    if m.timeEstimate.None? then 0
    else
      var run := FirstDigitRun(m.timeEstimate.value);
      if run.None? then 0 else DigitsValue(run.value)
  }

  /** The minutes of a list of meals, summed in order. */
  function TotalMinutes(meals: seq<PlannedMeal>): nat
  {
    if |meals| == 0 then 0 else TotalMinutes(meals[..|meals| - 1]) + MealMinutes(meals[|meals| - 1])
  }

  /** The total of two lists one after the other is the sum of their totals. */
  lemma {:induction false} TotalMinutesAppend(a: seq<PlannedMeal>, b: seq<PlannedMeal>)
    ensures TotalMinutes(a + b) == TotalMinutes(a) + TotalMinutes(b)
    decreases |b|
  {
    if |b| > 0 {
      assert (a + b)[..|a + b| - 1] == a + b[..|b| - 1];
      TotalMinutesAppend(a, b[..|b| - 1]);
    } else {
      assert a + b == a;
    }
  }

  /** `{n}m` under an hour, else `{h}h {m}m`, or `{h}h` on the hour. */
  function FormatMinutes(n: nat): (r: string)
    ensures n < 60 ==> r == Decimal(n) + "m"
    ensures n >= 60 && n % 60 > 0 ==> r == Decimal(n / 60) + "h " + Decimal(n % 60) + "m"
    ensures n >= 60 && n % 60 == 0 ==> r == Decimal(n / 60) + "h"
  {
    if n >= 60 then
      (if n % 60 > 0 then Decimal(n / 60) + "h " + Decimal(n % 60) + "m" else Decimal(n / 60) + "h")
    else Decimal(n) + "m"
  }

  predicate AllDigits(s: string)
  {
    forall i :: 0 <= i < |s| ==> IsDigit(s[i])
  }

  /** Reads a non-empty digit string, or nothing. */
  function ReadNumber(s: string): (r: Option<nat>)
    ensures r.Some? <==> |s| > 0 && AllDigits(s)
  {
    if |s| > 0 && AllDigits(s) then Some(DigitsValue(s)) else None
  }

  predicate IsH(c: char)
  {
    c == 'h'
  }

  /** Reads a duration written as `{n}m`, `{h}h` or `{h}h {m}m` back into minutes. */
  function ParseDuration(s: string): Option<nat>
  {
    var k := FindFirst(s, IsH);
    if k < 0 then
      (if |s| > 0 && s[|s| - 1] == 'm' then ReadNumber(s[..|s| - 1]) else None)
    else
      match ReadNumber(s[..k])
      case None => None
      case Some(hours) => ParseAfterHours(hours, s[k + 1..])
  }

  /** What may follow the hours: nothing, or a space, the minutes and `m`. */
  function ParseAfterHours(hours: nat, rest: string): Option<nat>
  {
    if rest == "" then Some(hours * 60)
    else if |rest| >= 2 && rest[0] == ' ' && rest[|rest| - 1] == 'm' then
      match ReadNumber(rest[1..|rest| - 1])
      case None => None
      case Some(mins) => Some(hours * 60 + mins)
    else None
  }

  lemma {:induction false} NoHInDigits(d: string, tail: string)
    requires AllDigits(d)
    ensures FindFirst(d + tail, IsH) == (if FindFirst(tail, IsH) < 0 then -1 else |d| + FindFirst(tail, IsH))
  {
    var k := FindFirst(tail, IsH);
    var s := d + tail;
    assert forall i :: 0 <= i < |d| ==> !IsH(s[i]);
    if k >= 0 {
      assert IsH(s[|d| + k]);
      forall j | |d| <= j < |d| + k ensures !IsH(s[j]) {
        assert s[j] == tail[j - |d|];
      }
    } else {
      forall j | 0 <= j < |s| ensures !IsH(s[j]) {
        if j >= |d| {
          assert s[j] == tail[j - |d|];
        }
      }
    }
  }

  lemma {:induction false} ParseMinutesOnly(d: string)
    requires |d| > 0 && AllDigits(d)
    ensures ParseDuration(d + "m") == Some(DigitsValue(d))
  {
    NoHInDigits(d, "m");
    assert FindFirst("m", IsH) == -1;
    assert (d + "m")[..|d|] == d;
  }

  lemma {:induction false} ParseAtHours(d: string, rest: string)
    requires |d| > 0 && AllDigits(d)
    ensures ParseDuration(d + ['h'] + rest) == ParseAfterHours(DigitsValue(d), rest)
  {
    var s := d + ['h'] + rest;
    assert s == d + (['h'] + rest);
    NoHInDigits(d, ['h'] + rest);
    assert FindFirst(['h'] + rest, IsH) == 0;
    assert s[..|d|] == d;
    assert s[|d| + 1..] == rest;
  }

  lemma {:induction false} ParseHoursOnly(d: string)
    requires |d| > 0 && AllDigits(d)
    ensures ParseDuration(d + "h") == Some(DigitsValue(d) * 60)
  {
    ParseAtHours(d, "");
    assert d + ['h'] + "" == d + "h";
  }

  lemma {:induction false} AfterHoursMinutes(hours: nat, e: string)
    requires |e| > 0 && AllDigits(e)
    ensures ParseAfterHours(hours, " " + e + "m") == Some(hours * 60 + DigitsValue(e))
  {
    var rest := " " + e + "m";
    assert rest[1..|rest| - 1] == e;
  }

  lemma {:induction false} HoursMinutesShape(d: string, e: string)
    ensures d + "h " + e + "m" == d + ['h'] + (" " + e + "m")
  {
  }

  lemma {:induction false} ParseHoursAndMinutes(d: string, e: string)
    requires |d| > 0 && AllDigits(d) && |e| > 0 && AllDigits(e)
    ensures ParseDuration(d + "h " + e + "m") == Some(DigitsValue(d) * 60 + DigitsValue(e))
  {
    calc {
      ParseDuration(d + "h " + e + "m");
      { HoursMinutesShape(d, e); }
      ParseDuration(d + ['h'] + (" " + e + "m"));
      { ParseAtHours(d, " " + e + "m"); }
      ParseAfterHours(DigitsValue(d), " " + e + "m");
      { AfterHoursMinutes(DigitsValue(d), e); }
      Some(DigitsValue(d) * 60 + DigitsValue(e));
    }
  }

  /** Every total the page prints reads back as the same number of minutes. */
  lemma {:induction false} FormatMinutesRoundTrip(n: nat)
    ensures ParseDuration(FormatMinutes(n)) == Some(n)
  {
    if n < 60 {
      ParseMinutesOnly(Decimal(n));
      DecimalRoundTrip(n);
    } else if n % 60 == 0 {
      ParseHoursOnly(Decimal(n / 60));
      DecimalRoundTrip(n / 60);
    } else {
      var h, m := n / 60, n % 60;
      assert FormatMinutes(n) == Decimal(h) + "h " + Decimal(m) + "m";
      ParseHoursAndMinutes(Decimal(h), Decimal(m));
      DecimalRoundTrip(h);
      DecimalRoundTrip(m);
      assert h * 60 + m == n;
    }
  }

  /**
   * `totalPrepTime`: `"0m"` for a day without meals; otherwise the minutes
   * of every meal are added up one meal at a time and formatted.
   */
  method TotalPrepTime(meals: seq<PlannedMeal>) returns (r: string)
    ensures |meals| == 0 ==> r == "0m"
    ensures |meals| > 0 ==> r == FormatMinutes(TotalMinutes(meals))
  {
    if |meals| == 0 {
      return "0m";
    }
    var totalMinutes := 0;
    var i := 0;
    while i < |meals|
      invariant 0 <= i <= |meals|
      invariant totalMinutes == TotalMinutes(meals[..i])
    {
      assert meals[..i + 1][..i] == meals[..i];
      totalMinutes := totalMinutes + MealMinutes(meals[i]);
      i := i + 1;
    }
    assert meals[..i] == meals;
    r := FormatMinutes(totalMinutes);
  }

  function Meal(estimate: string): PlannedMeal
  {
    PlannedMeal(None, "", Some(estimate), "", "", [], None, None)
  }

  lemma {:induction false} TwoDigitMinutes(s: string)
    requires |s| >= 3 && IsDigit(s[0]) && IsDigit(s[1]) && !IsDigit(s[2])
    ensures MealMinutes(Meal(s)) == DigitValue(s[0]) * 10 + DigitValue(s[1])
  {
    assert FindFirst(s, IsDigit) == 0;
    assert s[0..] == s;
    assert DigitRun(s[2..]) == "";
    assert s[1..][1..] == s[2..];
    assert DigitRun(s[1..]) == [s[1]];
    var run := DigitRun(s);
    assert run == [s[0], s[1]];
    assert FirstDigitRun(s) == Some(run);
    assert run[..1] == [s[0]];
    assert [s[0]][..0] == [];
    assert DigitsValue(run) == DigitsValue([s[0]]) * 10 + DigitValue(s[1]);
  }

  lemma {:induction false} OneDigitMinutes(s: string)
    requires |s| >= 2 && IsDigit(s[0]) && !IsDigit(s[1])
    ensures MealMinutes(Meal(s)) == DigitValue(s[0])
  {
    assert FindFirst(s, IsDigit) == 0;
    assert s[0..] == s;
    assert DigitRun(s[1..]) == "";
    var run := DigitRun(s);
    assert run == [s[0]];
    assert FirstDigitRun(s) == Some(run);
    assert run[..0] == [];
    assert DigitsValue(run) == DigitValue(run[0]);
    assert MealMinutes(Meal(s)) == DigitsValue(run);
  }

  lemma {:induction false} NoMinutes(s: string)
    requires forall i :: 0 <= i < |s| ==> !IsDigit(s[i])
    ensures MealMinutes(Meal(s)) == 0
  {
  }

  lemma {:induction false} TotalOfThree(a: PlannedMeal, b: PlannedMeal, c: PlannedMeal)
    ensures TotalMinutes([a, b, c]) == MealMinutes(a) + MealMinutes(b) + MealMinutes(c)
  {
    assert [a][..0] == [];
    assert TotalMinutes([a]) == MealMinutes(a);
    assert [a, b][..1] == [a];
    assert TotalMinutes([a, b]) == TotalMinutes([a]) + MealMinutes(b);
    assert [a, b, c][..2] == [a, b];
  }

  /** "10 minutes", "5m" and "not a time" add up to 15 minutes, shown as "15m". */
  lemma {:induction false} ExampleFifteenMinutes()
    ensures TotalMinutes([Meal("10 minutes"), Meal("5m"), Meal("not a time")]) == 15
  {
    TwoDigitMinutes("10 minutes");
    OneDigitMinutes("5m");
    NoMinutes("not a time");
    TotalOfThree(Meal("10 minutes"), Meal("5m"), Meal("not a time"));
  }

  lemma {:induction false} FormatFifteen()
    ensures FormatMinutes(15) == "15m"
  {
    assert Decimal(15) == "15";
  }

  /** "40 min" and "30 min" add up to 70 minutes. */
  lemma {:induction false} ExampleSeventyMinutes()
    ensures TotalMinutes([Meal("40 min"), Meal("30 min")]) == 70
  {
    var a, b := "40 min", "30 min";
    TwoDigitMinutes(a);
    TwoDigitMinutes(b);
    var meals := [Meal(a), Meal(b)];
    assert meals[..1] == [Meal(a)];
    assert [Meal(a)][..0] == [];
  }

  /** 70 minutes are shown as "1h 10m". */
  lemma {:induction false} ExampleOneHourTen()
    ensures FormatMinutes(70) == "1h 10m"
  {
    assert Decimal(1) == "1";
    assert Decimal(10) == "10";
  }

  const DayNames: seq<string> := ["Sunday", "Monday", "Tuesday", "Wednesday", "Thursday", "Friday", "Saturday"]

  /** What `getDayNumber` computes its date from. */
  datatype DayNumber =
    | ListPosition(n: nat)      // not a weekday name: the day's position, counted from 1
    | WeekdayOffset(diff: int)  // a weekday: this many days from today within the current week

  /**
   * `getDayNumber(dayName, index)` given today's day of the week
   * (0 = Sunday): the position `index + 1` for an unknown name, else the
   * offset from today to that weekday of the same week.
   */
  function GetDayNumber(dayName: string, index: nat, currentDayOfWeek: nat): (r: DayNumber)
    requires currentDayOfWeek < 7
    ensures r.ListPosition? <==> forall i :: 0 <= i < 7 ==> !EqualsIgnoreCase(DayNames[i], dayName)
    ensures r.ListPosition? ==> r.n == index + 1
    ensures r.WeekdayOffset? ==> -6 <= r.diff <= 6 && 0 <= currentDayOfWeek + r.diff < 7
                                 && EqualsIgnoreCase(DayNames[currentDayOfWeek + r.diff], dayName)
  {
    var target := FindFirst(DayNames, (d: string) => EqualsIgnoreCase(d, dayName));
    if target == -1 then ListPosition(index + 1) else WeekdayOffset(target - currentDayOfWeek)
  }
}
