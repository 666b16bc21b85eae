/** The daily feeding timetable shown with the formula result. */
module Schedule {
  import opened Text

  /** One row of the timetable: a clock time "HH:00" and the amount range "min~max". */
  datatype Feeding = Feeding(time: string, amount: string)

  /** Newborn schedules (eight or more feedings) start at midnight, the others at 06:00. */
  function StartHour(f: int): int {
    if f >= 8 then 0 else 6
  }

  /** The hour of feeding `i`: the day divided into `f` equal whole-hour intervals. */
  function ScheduledHour(f: int, i: int): (h: int)
    requires f > 0
    ensures 0 <= h < 24
  {
    (StartHour(f) + i * (24 / f)) % 24
  }

  /** A clock time of the form "HH:00". */
  predicate IsClockTime(t: string) {
    |t| == 5 && '0' <= t[0] <= '9' && '0' <= t[1] <= '9' && t[2..] == ":00"
  }

  /** The hour a clock time denotes. */
  function ClockHour(t: string): nat
    requires IsClockTime(t)
  {
    10 * DigitValue(t[0]) + DigitValue(t[1])
  }

  /** "HH:00" for an hour, the hour zero-padded to two digits. */
  function FormatHour(h: nat): (t: string)
    requires h < 24
    ensures IsClockTime(t) && ClockHour(t) == h
  {
    TwoDigits(h);
    var t := PadStart(NatToString(h), 2, '0') + ":00";
    DigitRoundTrip(h / 10);
    DigitRoundTrip(h % 10);
    assert t[0] == DigitChar(h / 10) && t[1] == DigitChar(h % 10);
    t
  }

  lemma {:induction false} DigitRoundTrip(d: nat)
    requires d < 10
    ensures DigitValue(DigitChar(d)) == d
  {
  }

  lemma {:induction false} TwoDigits(h: nat)
    requires h < 100
    ensures PadStart(NatToString(h), 2, '0') == [DigitChar(h / 10), DigitChar(h % 10)]
  {
    var s := NatToString(h);
    if h < 10 {
      var r := PadStart(s, 2, '0');
      assert r[0] == '0' == DigitChar(0);
      assert r[1..] == s;
    }
  }

  /** `feedingsPerDay` rows, one per feeding; none when the count is not positive. */
  function BuildSchedule(feedingsPerDay: int, perFeedingMin: int, perFeedingMax: int): (r: seq<Feeding>)
    ensures |r| == if feedingsPerDay > 0 then feedingsPerDay else 0
    ensures forall i :: 0 <= i < |r| ==>
      IsClockTime(r[i].time) && ClockHour(r[i].time) == ScheduledHour(feedingsPerDay, i)
    ensures forall i :: 0 <= i < |r| ==>
      r[i].amount == IntToString(perFeedingMin) + "~" + IntToString(perFeedingMax)
  {
    if feedingsPerDay <= 0 then []
    else
      seq(feedingsPerDay, i requires 0 <= i < feedingsPerDay =>
        Feeding(FormatHour(ScheduledHour(feedingsPerDay, i)),
                IntToString(perFeedingMin) + "~" + IntToString(perFeedingMax)))
  }

  /** With at most 24 feedings the hours are pairwise distinct, so the times can serve as keys. */
  lemma {:induction false} ScheduleTimesDistinct(f: int, lo: int, hi: int)
    requires 1 <= f <= 24
    ensures forall i, j :: 0 <= i < j < |BuildSchedule(f, lo, hi)| ==>
      BuildSchedule(f, lo, hi)[i].time != BuildSchedule(f, lo, hi)[j].time
  {
    var r := BuildSchedule(f, lo, hi);
    forall i, j | 0 <= i < j < |r| ensures r[i].time != r[j].time {
      HoursDistinct(f, i, j);
    }
  }

  lemma {:induction false} HoursDistinct(f: int, i: int, j: int)
    requires 1 <= f <= 24 && 0 <= i < j < f
    ensures ScheduledHour(f, i) != ScheduledHour(f, j)
  {
    var q := 24 / f;
    var d := j - i;
    IntervalBound(f, q, d);
    var a := StartHour(f) + i * q;
    assert StartHour(f) + j * q == a + d * q;
    ModDistinct(a, d * q);
  }

  /** A gap of fewer than `f` intervals is less than a day. */
  lemma {:induction false} IntervalBound(f: int, q: int, d: int)
    requires 1 <= f <= 24 && q == 24 / f && 1 <= d < f
    ensures 0 < d * q < 24
  {
    assert f * q <= 24;
    assert q >= 1;
    assert d * q <= (f - 1) * q;
    assert (f - 1) * q == f * q - q;
  }

  lemma {:induction false} ModDistinct(a: int, g: int)
    requires 0 < g < 24
    ensures a % 24 != (a + g) % 24
  {
  }

  /** Five feedings fall at 06, 10, 14, 18 and 22 o'clock. */
  lemma {:induction false} FiveFeedings()
    ensures ScheduledHour(5, 0) == 6 && ScheduledHour(5, 1) == 10 && ScheduledHour(5, 2) == 14
    ensures ScheduledHour(5, 3) == 18 && ScheduledHour(5, 4) == 22
  {
  }
}
