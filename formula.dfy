/** Daily formula amount, feedings per day and the per-feeding range for a milk-stage baby. */
module Formula {

  /** Result of the dosing calculation; all amounts are in millilitres. */
  datatype FormulaAmount = FormulaAmount(
    dailyTotal: int, perFeedingMin: int, perFeedingMax: int, feedingsPerDay: int, intervalDesc: string)

  /** The daily cap, whatever the weight. */
  const DailyCap := 1000

  /** Dosing for an age in months and a weight of `weightTenths` tenths of a kilogram.
      At 150 ml per kg the raw daily amount is exactly 15 ml per tenth, so rounding it is the
      identity. */
  method CalcFormulaAmount(months: int, weightTenths: nat) returns (r: FormulaAmount)
    // the daily total is 150 ml/kg, capped at 1000 ml
    ensures r.dailyTotal <= DailyCap && r.dailyTotal <= 15 * weightTenths
    ensures r.dailyTotal == DailyCap || r.dailyTotal == 15 * weightTenths
    // feeding brackets by age
    ensures months < 1 ==> r.feedingsPerDay == 8 && r.intervalDesc == "3시간"
    ensures 1 <= months < 2 ==> r.feedingsPerDay == 6 && r.intervalDesc == "4시간"
    ensures months >= 2 ==> r.feedingsPerDay == 5 && r.intervalDesc == "약 5시간"
    // the largest multiple of 10 ml that, given at every feeding, stays within the daily total
    ensures r.perFeedingMax >= 0 && r.perFeedingMax % 10 == 0
    ensures r.perFeedingMax * r.feedingsPerDay <= r.dailyTotal < (r.perFeedingMax + 10) * r.feedingsPerDay
    // the minimum is 20 ml below the maximum but never under 10 ml
    ensures r.perFeedingMin >= 10 && r.perFeedingMin >= r.perFeedingMax - 20
    ensures r.perFeedingMin == 10 || r.perFeedingMin == r.perFeedingMax - 20
    // so the range is well ordered exactly when the maximum reaches 10 ml
    ensures r.perFeedingMin <= r.perFeedingMax <==> r.perFeedingMax >= 10
  {
    var rawDaily := 15 * weightTenths;
    var dailyTotal := if rawDaily < DailyCap then rawDaily else DailyCap;

    var intervalDesc: string;
    var feedingsPerDay: int;
    if months < 1 {
      feedingsPerDay := 8;
      intervalDesc := "3시간";
    } else if months < 2 {
      feedingsPerDay := 6;
      intervalDesc := "4시간";
    } else if months < 3 {
      feedingsPerDay := 5;
      intervalDesc := "약 5시간";
    } else {
      feedingsPerDay := 5;
      intervalDesc := "약 5시간";
    }

    var perFeeding := dailyTotal / feedingsPerDay;
    var tens := perFeeding / 10;
    var perFeedingMax := tens * 10;
    FloorToTens(dailyTotal, feedingsPerDay, perFeeding, tens);
    var perFeedingMin := if perFeedingMax - 20 > 10 then perFeedingMax - 20 else 10;
    r := FormulaAmount(dailyTotal, perFeedingMin, perFeedingMax, feedingsPerDay, intervalDesc);
  }

  /** Dividing by the feedings and then by ten, rounding down each time, gives the largest
      multiple of ten whose `f`-fold fits in `total`. */
  lemma {:induction false} FloorToTens(total: nat, f: int, perFeeding: int, tens: int)
    requires f > 0 && perFeeding == total / f && tens == perFeeding / 10
    ensures tens * 10 * f <= total < (tens * 10 + 10) * f
  {
    assert total == perFeeding * f + total % f && total % f < f;
    assert perFeeding == tens * 10 + perFeeding % 10 && perFeeding % 10 < 10;
    MulMonotone(tens * 10, perFeeding, f);
    MulMonotone(perFeeding + 1, tens * 10 + 10, f);
    assert (perFeeding + 1) * f == perFeeding * f + f;
  }

  /** Multiplying by a positive factor keeps the order. */
  lemma {:induction false} MulMonotone(a: int, b: int, f: int)
    requires a <= b && f > 0
    ensures a * f <= b * f
  {
    assert b * f - a * f == (b - a) * f;
  }

  /** Worked cases: 5.0 kg at two months and 10.0 kg at one month. */
  method FormulaExamples() {
    var a := CalcFormulaAmount(2, 50);
    assert a.dailyTotal == 750 && a.feedingsPerDay == 5;
    assert a.perFeedingMax == 150 && a.perFeedingMin == 130;
    var b := CalcFormulaAmount(1, 100);
    assert b.dailyTotal == 1000 && b.feedingsPerDay == 6;
    assert b.perFeedingMax == 160 && b.perFeedingMin == 140;
  }
}
