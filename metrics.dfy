/** The derived metrics of a day, all functions of its step count alone:
    calories = floor(steps * 0.04), activeMinutes = floor(steps / 100) and the
    distance steps * 0.0007 km rounded to two decimals (here: hundredths). */
module ActivityMetrics {
  import opened Types

  /** Math.floor(steps * 0.04) in integer form. */
  function Calories(steps: nat): (c: nat)
    ensures 25 * c <= steps < 25 * (c + 1)
  {
    steps * 4 / 100
  }

  /** Math.floor(steps / 100). */
  function ActiveMinutes(steps: nat): (m: nat)
    ensures 100 * m <= steps < 100 * (m + 1)
  {
    steps / 100
  }

  /** steps * 0.0007 km to two decimals, in hundredths: the integer nearest to
      7 * steps / 100, halves rounded up. */
  function DistanceHundredths(steps: nat): (d: nat)
    ensures 100 * d <= 7 * steps + 50 < 100 * (d + 1)
  {
    (7 * steps + 50) / 100
  }

  /** The record for a date with every metric recomputed from steps. */
  function Derive(date: string, steps: nat): ActivityDay {
    ActivityDay(date, steps, DistanceHundredths(steps), Calories(steps), ActiveMinutes(steps))
  }

  /** The metrics of a day are the ones its step count gives. */
  predicate MetricsConsistent(day: ActivityDay) {
    day == Derive(day.date, day.steps)
  }

  /** More steps never mean fewer calories, minutes or kilometres. */
  lemma {:induction false} MetricsMonotone(s1: nat, s2: nat)
    requires s1 <= s2
    ensures Calories(s1) <= Calories(s2)
    ensures ActiveMinutes(s1) <= ActiveMinutes(s2)
    ensures DistanceHundredths(s1) <= DistanceHundredths(s2)
  {
    var c1, c2 := Calories(s1), Calories(s2);
    assert 25 * c1 <= s1 <= s2 < 25 * (c2 + 1);
    var m1, m2 := ActiveMinutes(s1), ActiveMinutes(s2);
    assert 100 * m1 <= s1 <= s2 < 100 * (m2 + 1);
    var d1, d2 := DistanceHundredths(s1), DistanceHundredths(s2);
    assert 100 * d1 <= 7 * s1 + 50 <= 7 * s2 + 50 < 100 * (d2 + 1);
  }

  /** 7000 steps: 4.90 km, 280 kcal, 70 active minutes. */
  lemma SevenThousandSteps(date: string)
    ensures Derive(date, 7000) == ActivityDay(date, 7000, 490, 280, 70)
  {
  }
}
