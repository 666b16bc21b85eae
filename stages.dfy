/** Feeding stages by age in months, the stage order used for grouping, and the age itself. */
module Stages {
  import opened Calendar

  /** A feeding stage as shown to the parent. */
  datatype Stage = Stage(name: string, mealsPerDay: string, description: string, hasMenu: bool)

  const MilkStage := "모유/분유기"
  const EarlyStage := "초기 이유식"
  const MiddleStage := "중기 이유식"
  const LateStage := "후기 이유식"
  const CompletionStage := "완료기 이유식"
  const ToddlerStage := "유아식"
  const GeneralToddlerStage := "일반 유아식"

  /** The stage names in stage order. */
  const StageNames: seq<string> :=
    [MilkStage, EarlyStage, MiddleStage, LateStage, CompletionStage, ToddlerStage, GeneralToddlerStage]

  /** Position of each stage name in the stage order. */
  const StageOrderTable: map<string, int> := map[
    MilkStage := 0, EarlyStage := 1, MiddleStage := 2, LateStage := 3,
    CompletionStage := 4, ToddlerStage := 5, GeneralToddlerStage := 6]

  /** The stage for an age in whole months. */
  function GetStage(months: int): (s: Stage)
    ensures s.hasMenu <==> months > 3
    ensures s.name in StageNames
  {
    if months <= 3 then
      Stage(MilkStage, "수유", "모유 또는 분유 수유 중입니다.", false)
    else if months <= 5 then
      Stage(EarlyStage, "1일 1회", "미음 위주의 초기 이유식 단계입니다.", true)
    else if months <= 7 then
      Stage(MiddleStage, "1일 1~2회", "묽은 죽 위주의 중기 이유식 단계입니다.", true)
    else if months <= 9 then
      Stage(LateStage, "1일 2~3회", "된죽/무른밥의 후기 이유식 단계입니다.", true)
    else if months <= 11 then
      Stage(CompletionStage, "1일 3회", "진밥과 반찬의 완료기 이유식 단계입니다.", true)
    else if months <= 35 then
      Stage(ToddlerStage, "1일 3회 + 간식", "밥, 국, 반찬의 유아식 단계입니다.", true)
    else
      Stage(GeneralToddlerStage, "1일 3회 + 간식", "일반 유아식을 먹을 수 있는 단계입니다.", true)
  }

  /** Stage order of a stage name; an unknown name gives -1. */
  function StageOrder(name: string): (o: int)
    ensures -1 <= o <= 6
    ensures o == -1 <==> name !in StageNames
    ensures 0 <= o ==> StageNames[o] == name
  {
    if name in StageOrderTable then StageOrderTable[name] else -1
  }

  /** Stage order numbers each known stage by its position in `StageNames`. */
  lemma {:induction false} StageOrderOfNames(i: int)
    requires 0 <= i < |StageNames|
    ensures StageOrder(StageNames[i]) == i
  {
  }

  /** The stage of an age in months is the `StageIndex`-th stage name. */
  lemma {:induction false} GetStageOrder(months: int)
    ensures StageOrder(GetStage(months).name) == StageIndex(months)
  {
  }

  /** Index of the stage for an age: the number of stage thresholds the age has passed. */
  function StageIndex(months: int): (i: int)
    ensures 0 <= i <= 6
  {
    (if months >= 4 then 1 else 0) + (if months >= 6 then 1 else 0) + (if months >= 8 then 1 else 0)
    + (if months >= 10 then 1 else 0) + (if months >= 12 then 1 else 0) + (if months >= 36 then 1 else 0)
  }

  /** Stage order never decreases as the child gets older. */
  lemma {:induction false} StageOrderMonotone(m1: int, m2: int)
    requires m1 <= m2
    ensures 0 <= StageOrder(GetStage(m1).name) <= StageOrder(GetStage(m2).name) <= 6
  {
    GetStageOrder(m1);
    GetStageOrder(m2);
  }

  /** The stage changes exactly when the age reaches 4, 6, 8, 10, 12 or 36 months. */
  lemma {:induction false} StageChangesAt(m: int)
    ensures GetStage(m).name != GetStage(m + 1).name <==> m + 1 in {4, 6, 8, 10, 12, 36}
  {
    GetStageOrder(m);
    GetStageOrder(m + 1);
  }

  /** Age in whole months from `birth` to `today`: the count of month-differences, one less
      when today's day of month is before the birth day, and never negative. */
  method CalcMonths(birth: Date, today: Date) returns (result: int)
    requires ValidDate(birth) && ValidDate(today)
    ensures result >= 0
    ensures result > 0 ==> AnniversaryReached(birth, today, result)
    ensures !AnniversaryReached(birth, today, result + 1)
  {
    var months := (today.year - birth.year) * 12 + (today.month - birth.month);
    if today.day < birth.day {
      months := months - 1;
    }
    result := if months > 0 then months else 0;
  }
}
