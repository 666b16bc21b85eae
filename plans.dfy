/** Weekly and monthly meal plans drawn from the menu pools, and filling a shared plan's empty
    slots from one child's own pool. */
module Plans {
  import opened Options
  import opened Calendar
  import opened Sequences
  import opened Stages
  import opened Pools
  import opened Selection

  /** One day of a weekly plan; an empty string means no such meal that day. */
  datatype DayMeal = DayMeal(day: string, breakfast: string, lunch: string, dinner: string, snack: string)

  /** One day of a monthly plan, numbered from 1. */
  datatype MonthDayMeal = MonthDayMeal(date: int, breakfast: string, lunch: string, dinner: string, snack: string)

  datatype MonthPlan = MonthPlan(year: int, month: int, days: seq<MonthDayMeal>)

  /** Monday to Sunday. */
  const DayNames: seq<string> := ["월", "화", "수", "목", "금", "토", "일"]

  /** The random draws of the four slot shuffles of one plan. */
  datatype SlotDraws = SlotDraws(breakfast: seq<nat>, lunch: seq<nat>, dinner: seq<nat>, snack: seq<nat>)

  predicate DrawsFit(p: MealPool, d: SlotDraws) {
    ValidDraws(|p.breakfast|, d.breakfast) && ValidDraws(|p.lunch|, d.lunch)
    && ValidDraws(|p.dinner|, d.dinner) && ValidDraws(|p.snack|, d.snack)
  }

  /** The draws suit the pool of `name`, if it has one. */
  predicate DrawsFitStage(name: string, d: SlotDraws) {
    name in MealPools ==> DrawsFit(MealPools[name], d)
  }

  /** A planned dish comes from its slot's list, or is "" when that list is empty. */
  predicate FromSlot(dish: string, items: seq<string>) {
    if items == [] then dish == "" else dish in items
  }

  predicate DayFromPool(d: DayMeal, p: MealPool) {
    FromSlot(d.breakfast, p.breakfast) && FromSlot(d.lunch, p.lunch)
    && FromSlot(d.dinner, p.dinner) && FromSlot(d.snack, p.snack)
  }

  predicate MonthDayFromPool(d: MonthDayMeal, p: MealPool) {
    FromSlot(d.breakfast, p.breakfast) && FromSlot(d.lunch, p.lunch)
    && FromSlot(d.dinner, p.dinner) && FromSlot(d.snack, p.snack)
  }

  // ---------------------------------------------------------------------------
  // Weekly plans

  /** Seven days, Monday first, from the pool of `stageName`; none for a stage without a pool. */
  function GenerateWeeklyPlanFromPool(stageName: string, draws: SlotDraws): (r: seq<DayMeal>)
    requires DrawsFitStage(stageName, draws)
    ensures stageName !in MealPools ==> r == []
    ensures stageName in MealPools ==> (|r| == 7
      && forall i :: 0 <= i < 7 ==> r[i].day == DayNames[i] && DayFromPool(r[i], MealPools[stageName]))
  {
    if stageName !in MealPools then []
    else
      var pool := MealPools[stageName];
      var breakfasts := PickN(pool.breakfast, 7, draws.breakfast);
      var lunches := PickN(pool.lunch, 7, draws.lunch);
      var dinners := PickN(pool.dinner, 7, draws.dinner);
      var snacks := PickN(pool.snack, 7, draws.snack);
      seq(7, i requires 0 <= i < 7 => DayMeal(DayNames[i], breakfasts[i], lunches[i], dinners[i], snacks[i]))
  }

  /** The weekly plan for a child's age: none before the first solid-food stage. */
  function GenerateWeeklyPlan(months: int, draws: SlotDraws): (r: seq<DayMeal>)
    requires DrawsFitStage(GetStage(months).name, draws)
    ensures months <= 3 <==> r == []
    ensures months > 3 ==> r == GenerateWeeklyPlanFromPool(GetStage(months).name, draws)
  {
    var stage := GetStage(months);
    PoolForEveryMenuStage(months);
    if !stage.hasMenu then [] else GenerateWeeklyPlanFromPool(stage.name, draws)
  }

  /** In the early and middle stages no dinner or snack is planned. */
  lemma {:induction false} WeeklyEarlyStagesNoDinner(months: int, draws: SlotDraws)
    requires 4 <= months <= 7 && DrawsFitStage(GetStage(months).name, draws)
    ensures forall i :: 0 <= i < |GenerateWeeklyPlan(months, draws)| ==>
      GenerateWeeklyPlan(months, draws)[i].dinner == "" && GenerateWeeklyPlan(months, draws)[i].snack == ""
  {
    var name := GetStage(months).name;
    SlotsEmptyOnlyEarly(name);
  }

  /** Within a week no dish repeats in a slot, since every non-empty slot has at least seven
      distinct dishes. */
  lemma {:induction false} WeeklyNoRepeats(stageName: string, draws: SlotDraws, i: int, j: int)
    requires DrawsFitStage(stageName, draws) && stageName in MealPools
    requires 0 <= i < j < 7
    ensures var r := GenerateWeeklyPlanFromPool(stageName, draws);
      r[i].breakfast != r[j].breakfast && r[i].lunch != r[j].lunch
      && (r[i].dinner == r[j].dinner ==> r[i].dinner == "")
      && (r[i].snack == r[j].snack ==> r[i].snack == "")
  {
    var pool := MealPools[stageName];
    PoolsWellFormed(stageName);
    SlotSizes(stageName);
    PickNDistinct(pool.breakfast, 7, draws.breakfast);
    PickNDistinct(pool.lunch, 7, draws.lunch);
    PickNDistinct(pool.dinner, 7, draws.dinner);
    PickNDistinct(pool.snack, 7, draws.snack);
  }

  // ---------------------------------------------------------------------------
  // Monthly plans

  /** One entry per day of `month` in `year`, from the pool of `stageName`; none for a stage
      without a pool. */
  function GenerateMonthlyPlanFromPool(stageName: string, year: int, month: int, draws: SlotDraws)
    : (r: Option<MonthPlan>)
    requires 1 <= month <= 12 && DrawsFitStage(stageName, draws)
    ensures r.None? <==> stageName !in MealPools
    ensures r.Some? ==> (r.value.year == year && r.value.month == month
      && |r.value.days| == DaysInMonth(year, month)
      && forall i :: 0 <= i < |r.value.days| ==>
           r.value.days[i].date == i + 1 && MonthDayFromPool(r.value.days[i], MealPools[stageName]))
  {
    if stageName !in MealPools then None
    else
      var pool := MealPools[stageName];
      var daysInMonth := DaysInMonth(year, month);
      var breakfasts := PickN(pool.breakfast, daysInMonth, draws.breakfast);
      var lunches := PickN(pool.lunch, daysInMonth, draws.lunch);
      var dinners := PickN(pool.dinner, daysInMonth, draws.dinner);
      var snacks := PickN(pool.snack, daysInMonth, draws.snack);
      var days := seq(daysInMonth, i requires 0 <= i < daysInMonth =>
        MonthDayMeal(i + 1, breakfasts[i], lunches[i], dinners[i], snacks[i]));
      Some(MonthPlan(year, month, days))
  }

  /** The monthly plan for a child's age; none before the first solid-food stage. */
  function GenerateMonthlyPlan(months: int, year: int, month: int, draws: SlotDraws): (r: Option<MonthPlan>)
    requires 1 <= month <= 12 && DrawsFitStage(GetStage(months).name, draws)
    ensures r.None? <==> months <= 3
    ensures months > 3 ==> r == GenerateMonthlyPlanFromPool(GetStage(months).name, year, month, draws)
  {
    var stage := GetStage(months);
    PoolForEveryMenuStage(months);
    if !stage.hasMenu then None else GenerateMonthlyPlanFromPool(stage.name, year, month, draws)
  }

  /** A month has more days than any slot has dishes, so every dish of a slot is served at
      least once in the month. */
  lemma {:induction false} MonthlyServesWholePool(stageName: string, year: int, month: int, draws: SlotDraws, dish: string)
    requires 1 <= month <= 12 && DrawsFitStage(stageName, draws) && stageName in MealPools
    ensures var days := GenerateMonthlyPlanFromPool(stageName, year, month, draws).value.days;
      (dish in MealPools[stageName].breakfast ==> exists i :: 0 <= i < |days| && days[i].breakfast == dish)
      && (dish in MealPools[stageName].lunch ==> exists i :: 0 <= i < |days| && days[i].lunch == dish)
      && (dish in MealPools[stageName].dinner ==> exists i :: 0 <= i < |days| && days[i].dinner == dish)
      && (dish in MealPools[stageName].snack ==> exists i :: 0 <= i < |days| && days[i].snack == dish)
  {
    var pool := MealPools[stageName];
    var n := DaysInMonth(year, month);
    var days := GenerateMonthlyPlanFromPool(stageName, year, month, draws).value.days;
    SlotSizes(stageName);
    MonthlyDaysArePicks(stageName, year, month, draws);
    if dish in pool.breakfast {
      PickNCovers(pool.breakfast, n, draws.breakfast, dish);
      var picks := PickN(pool.breakfast, n, draws.breakfast);
      var i :| 0 <= i < n && picks[i] == dish;
      assert days[i].breakfast == dish;
    }
    if dish in pool.lunch {
      PickNCovers(pool.lunch, n, draws.lunch, dish);
      var picks := PickN(pool.lunch, n, draws.lunch);
      var i :| 0 <= i < n && picks[i] == dish;
      assert days[i].lunch == dish;
    }
    if dish in pool.dinner {
      PickNCovers(pool.dinner, n, draws.dinner, dish);
      var picks := PickN(pool.dinner, n, draws.dinner);
      var i :| 0 <= i < n && picks[i] == dish;
      assert days[i].dinner == dish;
    }
    if dish in pool.snack {
      PickNCovers(pool.snack, n, draws.snack, dish);
      var picks := PickN(pool.snack, n, draws.snack);
      var i :| 0 <= i < n && picks[i] == dish;
      assert days[i].snack == dish;
    }
  }

  /** Day `i` of a monthly plan holds the `i`-th pick of each slot. */
  lemma {:induction false} MonthlyDaysArePicks(stageName: string, year: int, month: int, draws: SlotDraws)
    requires 1 <= month <= 12 && DrawsFitStage(stageName, draws) && stageName in MealPools
    ensures var pool := MealPools[stageName];
      var n := DaysInMonth(year, month);
      var days := GenerateMonthlyPlanFromPool(stageName, year, month, draws).value.days;
      |days| == n && forall i :: 0 <= i < n ==>
        days[i].breakfast == PickN(pool.breakfast, n, draws.breakfast)[i]
        && days[i].lunch == PickN(pool.lunch, n, draws.lunch)[i]
        && days[i].dinner == PickN(pool.dinner, n, draws.dinner)[i]
        && days[i].snack == PickN(pool.snack, n, draws.snack)[i]
  {
  }

  // ---------------------------------------------------------------------------
  // Filling a shared plan for one child

  /** The draws of the two one-dish picks made for one day. */
  datatype FillDraws = FillDraws(dinner: seq<nat>, snack: seq<nat>)

  /** Enough draws, each suiting the child's dinner and snack lists, for `n` days. */
  predicate FillDrawsFit(p: MealPool, draws: seq<FillDraws>, n: nat) {
    |draws| >= n
    && forall i :: 0 <= i < n ==> ValidDraws(|p.dinner|, draws[i].dinner) && ValidDraws(|p.snack|, draws[i].snack)
  }

  /** A dish after filling: kept when present, otherwise one dish of `items` when there is one. */
  predicate Filled(before: string, after: string, items: seq<string>) {
    (before != "" ==> after == before)
    && (before == "" && items != [] ==> after in items)
    && (before == "" && items == [] ==> after == "")
  }

  function FillSlot(dish: string, items: seq<string>, draws: seq<nat>): (r: string)
    requires ValidDraws(|items|, draws)
    ensures Filled(dish, r, items)
  {
    if dish == "" && |items| > 0 then PickN(items, 1, draws)[0] else dish
  }

  /** The shared weekly plan with each empty dinner and snack filled from the child's pool;
      unchanged for a stage without a pool. */
  function MergeWeeklyPlanForChild(shared: seq<DayMeal>, childStageName: string, draws: seq<FillDraws>)
    : (r: seq<DayMeal>)
    requires childStageName in MealPools ==> FillDrawsFit(MealPools[childStageName], draws, |shared|)
    ensures childStageName !in MealPools ==> r == shared
    ensures |r| == |shared|
    ensures childStageName in MealPools ==> forall i :: 0 <= i < |r| ==>
      r[i].day == shared[i].day && r[i].breakfast == shared[i].breakfast && r[i].lunch == shared[i].lunch
      && Filled(shared[i].dinner, r[i].dinner, MealPools[childStageName].dinner)
      && Filled(shared[i].snack, r[i].snack, MealPools[childStageName].snack)
  {
    if childStageName !in MealPools then shared
    else
      var pool := MealPools[childStageName];
      seq(|shared|, i requires 0 <= i < |shared| =>
        shared[i].(dinner := FillSlot(shared[i].dinner, pool.dinner, draws[i].dinner),
                   snack := FillSlot(shared[i].snack, pool.snack, draws[i].snack)))
  }

  /** Filling again changes nothing: pool dishes are never empty, so every slot the first fill
      could fill is already full. */
  lemma {:induction false} MergeWeeklyIdempotent(shared: seq<DayMeal>, child: string, d1: seq<FillDraws>, d2: seq<FillDraws>)
    requires child in MealPools
    requires FillDrawsFit(MealPools[child], d1, |shared|) && FillDrawsFit(MealPools[child], d2, |shared|)
    ensures MergeWeeklyPlanForChild(MergeWeeklyPlanForChild(shared, child, d1), child, d2)
         == MergeWeeklyPlanForChild(shared, child, d1)
  {
    var once := MergeWeeklyPlanForChild(shared, child, d1);
    var twice := MergeWeeklyPlanForChild(once, child, d2);
    PoolsWellFormed(child);
    forall i | 0 <= i < |once| ensures twice[i] == once[i] {
      FilledNotEmpty(shared[i].dinner, once[i].dinner, MealPools[child].dinner);
      FilledNotEmpty(shared[i].snack, once[i].snack, MealPools[child].snack);
    }
  }

  /** After filling from a list of non-empty dishes, the slot is empty only if the list is. */
  lemma {:induction false} FilledNotEmpty(before: string, after: string, items: seq<string>)
    requires Filled(before, after, items) && WellFormedSlot(items)
    ensures after == "" ==> before == "" && items == []
  {
    if after in items {
      var k :| 0 <= k < |items| && items[k] == after;
    }
  }

  /** The shared monthly plan with each empty dinner and snack filled from the child's pool;
      year and month are kept, and the plan is unchanged for a stage without a pool. */
  function MergeMonthlyPlanForChild(shared: MonthPlan, childStageName: string, draws: seq<FillDraws>)
    : (r: MonthPlan)
    requires childStageName in MealPools ==> FillDrawsFit(MealPools[childStageName], draws, |shared.days|)
    ensures childStageName !in MealPools ==> r == shared
    ensures r.year == shared.year && r.month == shared.month && |r.days| == |shared.days|
    ensures childStageName in MealPools ==> forall i :: 0 <= i < |r.days| ==>
      r.days[i].date == shared.days[i].date
      && r.days[i].breakfast == shared.days[i].breakfast && r.days[i].lunch == shared.days[i].lunch
      && Filled(shared.days[i].dinner, r.days[i].dinner, MealPools[childStageName].dinner)
      && Filled(shared.days[i].snack, r.days[i].snack, MealPools[childStageName].snack)
  {
    if childStageName !in MealPools then shared
    else
      var pool := MealPools[childStageName];
      var days := seq(|shared.days|, i requires 0 <= i < |shared.days| =>
        shared.days[i].(dinner := FillSlot(shared.days[i].dinner, pool.dinner, draws[i].dinner),
                        snack := FillSlot(shared.days[i].snack, pool.snack, draws[i].snack)));
      shared.(days := days)
  }

  /** A monthly plan drawn from an early-stage pool, filled for an older sibling, serves the
      sibling's dinner and snack lists on every day. */
  lemma {:induction false} MergeFillsEarlyMonth(year: int, month: int, draws: SlotDraws, child: string, fill: seq<FillDraws>)
    requires 1 <= month <= 12 && DrawsFitStage(EarlyStage, draws)
    requires child in MealPools && child != EarlyStage && child != MiddleStage
    requires FillDrawsFit(MealPools[child], fill, DaysInMonth(year, month))
    ensures var shared := GenerateMonthlyPlanFromPool(EarlyStage, year, month, draws).value;
      var r := MergeMonthlyPlanForChild(shared, child, fill);
      forall i :: 0 <= i < |r.days| ==>
        r.days[i].dinner in MealPools[child].dinner && r.days[i].snack in MealPools[child].snack
  {
    SlotsEmptyOnlyEarly(EarlyStage);
    SlotsEmptyOnlyEarly(child);
  }
}
