/** The menu pools: for each stage that has a menu, the candidate dishes of each meal slot. */
module Pools {
  import opened Stages
  import opened Sequences

  /** Candidate dishes per meal slot; an empty list means the stage has no such meal. */
  datatype MealPool = MealPool(breakfast: seq<string>, lunch: seq<string>, dinner: seq<string>, snack: seq<string>)

  const EarlyPool := MealPool(
    breakfast := [
      "쌀미음", "찹쌀미음", "오트밀미음", "감자미음", "고구마미음", "애호박미음", "브로콜리미음", "당근미음",
      "단호박미음", "시금치미음", "배미음", "바나나미음", "소고기미음", "양파미음"],
    lunch := [
      "쌀미음", "찹쌀미음", "감자미음", "고구마미음", "애호박미음", "양배추미음", "청경채미음", "당근미음",
      "무미음", "단호박미음", "콜리플라워미음", "배미음", "완두콩미음", "소고기미음"],
    dinner := [],
    snack := [])

  const MiddlePool := MealPool(
    breakfast := [
      "소고기당근죽", "닭고기감자죽", "소고기애호박죽", "소고기브로콜리죽", "닭고기양배추죽", "소고기시금치죽",
      "닭고기고구마죽", "소고기단호박죽", "닭고기무죽", "소고기오트밀야채죽", "연어감자죽", "소고기두부죽",
      "닭고기시금치죽", "소고기옥수수죽"],
    lunch := [
      "소고기배추죽", "소고기무죽", "닭고기단호박죽", "소고기청경채죽", "닭고기비타민죽", "소고기양파죽",
      "소고기완두콩죽", "닭고기브로콜리죽", "소고기감자죽", "대구살당근죽", "닭고기당근죽", "소고기미역죽",
      "소고기고구마죽", "닭고기애호박죽"],
    dinner := [],
    snack := [])

  const LatePool := MealPool(
    breakfast := [
      "소고기야채된죽", "닭고기감자무른밥", "소고기당근무른밥", "연어브로콜리죽", "소고기시금치무른밥",
      "닭고기단호박된죽", "소고기애호박무른밥", "닭고기브로콜리무른밥", "대구살감자된죽", "소고기양배추된죽",
      "연어야채무른밥", "닭고기시금치무른밥", "소고기오트밀야채된죽", "소고기무된죽"],
    lunch := [
      "소고기배추무른밥", "닭고기양배추무른밥", "대구살야채죽", "소고기두부무른밥", "닭고기완두콩무른밥",
      "소고기고구마무른밥", "연어감자무른밥", "닭고기두부무른밥", "소고기무무른밥", "대구살브로콜리무른밥",
      "소고기양파무른밥", "닭고기고구마된죽", "소고기단호박무른밥", "연어당근무른밥"],
    dinner := [
      "소고기무른밥 + 배추국", "닭고기무른밥 + 미역국", "소고기야채무른밥", "두부야채무른밥", "소고기감자무른밥",
      "닭고기당근무른밥", "소고기단호박무른밥", "닭고기야채무른밥 + 국", "소고기배추무른밥 + 미역국",
      "대구살무른밥 + 배추국", "소고기브로콜리무른밥 + 국", "닭고기감자무른밥 + 미역국", "두부당근무른밥 + 국",
      "소고기양파무른밥 + 국"],
    snack := [
      "바나나", "찐고구마", "사과퓨레", "배퓨레", "찐감자", "떡뻥", "아기과자", "단호박찜", "당근스틱",
      "찐브로콜리", "아보카도", "감자볼", "고구마볼", "과일요거트"])

  const CompletionPool := MealPool(
    breakfast := [
      "소고기야채진밥", "닭고기볶음밥", "소고기당근밥 + 미역국", "계란야채죽", "소고기시금치밥", "닭고기감자밥",
      "소고기브로콜리밥", "소고기고구마밥", "연어볶음밥", "소고기두부밥", "계란볶음밥", "닭고기단호박밥",
      "소고기감자밥 + 배추국", "닭고기시금치밥"],
    lunch := [
      "소고기완자 + 진밥", "닭고기야채볶음밥", "소고기배추국 + 밥", "두부조림 + 진밥", "소고기미역국 + 밥",
      "닭고기무국 + 밥", "연어야채밥", "닭고기감자조림 + 밥", "소고기된장국 + 밥", "연어감자밥 + 국",
      "대구야채밥", "소고기두부조림 + 밥", "닭고기단호박밥 + 국", "소고기고구마조림 + 밥"],
    dinner := [
      "소고기무국 + 진밥", "닭볶음탕 + 밥", "소고기감자조림 + 밥", "두부된장국 + 밥", "소고기야채국 + 밥",
      "닭고기미역국 + 밥", "소고기시금치국 + 밥", "닭고기야채국 + 밥", "소고기애호박국 + 밥",
      "연어진밥 + 미역국", "두부완자 + 밥", "소고기고구마국 + 밥", "닭고기된장국 + 밥", "소고기당근조림 + 밥"],
    snack := [
      "고구마스틱", "바나나", "떡", "사과", "아기요거트", "찐옥수수", "치즈", "감자스틱", "단호박스틱",
      "딸기요거트", "두부볼", "야채스틱", "바나나팬케이크", "고구마치즈볼"])

  const ToddlerPool := MealPool(
    breakfast := [
      "계란말이 + 밥 + 된장국", "소고기볶음밥 + 미역국", "주먹밥 + 소고기무국", "야채죽 + 계란찜",
      "채소볶음밥 + 달걀국", "잔치국수", "소고기비빔밥", "김치볶음밥 + 계란후라이", "감자전 + 밥 + 국",
      "소고기덮밥", "치즈밥 + 미역국", "계란덮밥 + 된장국", "닭고기죽", "소고기김밥"],
    lunch := [
      "소고기야채카레 + 밥", "닭고기덮밥 + 배추국", "소고기미역국 + 밥 + 계란말이", "어묵국 + 밥 + 멸치볶음",
      "돼지고기감자국 + 밥", "소고기된장찌개 + 밥", "볶음우동 + 달걀국", "닭고기카레 + 밥", "소고기국수",
      "제육볶음 + 밥 + 국", "생선까스 + 밥 + 국", "소고기잡채밥", "미트볼파스타", "소고기우동"],
    dinner := [
      "생선구이 + 밥 + 시금치나물", "소고기장조림 + 밥 + 된장국", "닭고기야채볶음 + 밥 + 국",
      "두부조림 + 밥 + 미역국", "소고기떡국", "돼지고기간장불고기 + 밥 + 콩나물국", "갈치구이 + 밥 + 무국",
      "닭고기장조림 + 밥 + 국", "소고기야채볶음 + 밥 + 국", "돼지고기김치찌개 + 밥", "생선조림 + 밥 + 국",
      "소고기감자조림 + 밥 + 된장국", "닭고기카레 + 밥 + 샐러드", "제육볶음 + 밥 + 된장국"],
    snack := [
      "과일 (사과, 배, 귤)", "고구마 + 우유", "요거트 + 시리얼", "바나나 + 치즈", "떡 + 우유",
      "찐옥수수", "과일주스 + 쿠키", "감자전", "호떡", "미니김밥", "과일샐러드", "두유 + 과자", "치즈스틱",
      "고구마맛탕"])

  /** The pool table, keyed by stage name. The toddler and general-toddler entries list the
      same dishes in the same order. The milk stage has no entry. */
  const MealPools: map<string, MealPool> := map[
    EarlyStage := EarlyPool, MiddleStage := MiddlePool, LateStage := LatePool,
    CompletionStage := CompletionPool, ToddlerStage := ToddlerPool, GeneralToddlerStage := ToddlerPool]

  /** Exactly the stages with a menu have a pool. */
  lemma {:induction false} PoolKeys(name: string)
    ensures name in MealPools <==> name in StageNames && name != MilkStage
  {
  }

  /** A pool exists for every age whose stage has a menu. */
  lemma {:induction false} PoolForEveryMenuStage(months: int)
    ensures GetStage(months).name in MealPools <==> GetStage(months).hasMenu
  {
    PoolKeys(GetStage(months).name);
  }

  /** The early and middle stages serve neither dinner nor snack; every other slot has dishes. */
  lemma {:induction false} SlotsEmptyOnlyEarly(name: string)
    requires name in MealPools
    ensures MealPools[name].breakfast != [] && MealPools[name].lunch != []
    ensures MealPools[name].dinner == [] <==> name == EarlyStage || name == MiddleStage
    ensures MealPools[name].snack == [] <==> name == EarlyStage || name == MiddleStage
  {
  }

  /** Every slot lists either no dish or fourteen. */
  lemma {:induction false} SlotSizes(name: string)
    requires name in MealPools
    ensures |MealPools[name].breakfast| == 14 && |MealPools[name].lunch| == 14
    ensures |MealPools[name].dinner| in {0, 14} && |MealPools[name].snack| in {0, 14}
  {
  }

  /** No dish is listed twice within one slot, and no dish name is empty. */
  predicate WellFormedSlot(items: seq<string>) {
    Distinct(items) && forall i :: 0 <= i < |items| ==> items[i] != ""
  }

  predicate WellFormedPool(p: MealPool) {
    WellFormedSlot(p.breakfast) && WellFormedSlot(p.lunch) && WellFormedSlot(p.dinner) && WellFormedSlot(p.snack)
  }

  lemma {:induction false} PoolsWellFormed(name: string)
    requires name in MealPools
    ensures WellFormedPool(MealPools[name])
  {
    EarlyPoolWellFormed();
    MiddlePoolWellFormed();
    LatePoolWellFormed();
    CompletionPoolWellFormed();
    ToddlerPoolWellFormed();
  }

  lemma {:induction false} EarlyPoolWellFormed()
    ensures WellFormedPool(EarlyPool)
  {
    EarlyBreakfastWellFormed();
    EarlyLunchWellFormed();
  }
  lemma {:induction false} EarlyBreakfastWellFormed() ensures WellFormedSlot(EarlyPool.breakfast) {}
  lemma {:induction false} EarlyLunchWellFormed() ensures WellFormedSlot(EarlyPool.lunch) {}

  lemma {:induction false} MiddlePoolWellFormed()
    ensures WellFormedPool(MiddlePool)
  {
    MiddleBreakfastWellFormed();
    MiddleLunchWellFormed();
  }
  lemma {:induction false} MiddleBreakfastWellFormed() ensures WellFormedSlot(MiddlePool.breakfast) {}
  lemma {:induction false} MiddleLunchWellFormed() ensures WellFormedSlot(MiddlePool.lunch) {}

  lemma {:induction false} LatePoolWellFormed()
    ensures WellFormedPool(LatePool)
  {
    LateBreakfastWellFormed();
    LateLunchWellFormed();
    LateDinnerWellFormed();
    LateSnackWellFormed();
  }
  lemma {:induction false} LateBreakfastWellFormed() ensures WellFormedSlot(LatePool.breakfast) {}
  lemma {:induction false} LateLunchWellFormed() ensures WellFormedSlot(LatePool.lunch) {}
  lemma {:induction false} LateDinnerWellFormed() ensures WellFormedSlot(LatePool.dinner) {}
  lemma {:induction false} LateSnackWellFormed() ensures WellFormedSlot(LatePool.snack) {}

  lemma {:induction false} CompletionPoolWellFormed()
    ensures WellFormedPool(CompletionPool)
  {
    CompletionBreakfastWellFormed();
    CompletionLunchWellFormed();
    CompletionDinnerWellFormed();
    CompletionSnackWellFormed();
  }
  lemma {:induction false} CompletionBreakfastWellFormed() ensures WellFormedSlot(CompletionPool.breakfast) {}
  lemma {:induction false} CompletionLunchWellFormed() ensures WellFormedSlot(CompletionPool.lunch) {}
  lemma {:induction false} CompletionDinnerWellFormed() ensures WellFormedSlot(CompletionPool.dinner) {}
  lemma {:induction false} CompletionSnackWellFormed() ensures WellFormedSlot(CompletionPool.snack) {}

  lemma {:induction false} ToddlerPoolWellFormed()
    ensures WellFormedPool(ToddlerPool)
  {
    ToddlerBreakfastWellFormed();
    ToddlerLunchWellFormed();
    ToddlerDinnerWellFormed();
    ToddlerSnackWellFormed();
  }
  lemma {:induction false} ToddlerBreakfastWellFormed() ensures WellFormedSlot(ToddlerPool.breakfast) {}
  lemma {:induction false} ToddlerLunchWellFormed() ensures WellFormedSlot(ToddlerPool.lunch) {}
  lemma {:induction false} ToddlerDinnerWellFormed() ensures WellFormedSlot(ToddlerPool.dinner) {}
  lemma {:induction false} ToddlerSnackWellFormed() ensures WellFormedSlot(ToddlerPool.snack) {}
}
