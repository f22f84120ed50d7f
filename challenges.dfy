/** The challenges view: three challenges recomputed from today's step count,
    their progress bars, and the static badge catalogue. */
module Challenges {
  import opened Types
  import opened ActivityMetrics

  /** "Daily Sprint": 5,000 steps; progress is the step count, capped. */
  function DailySprint(steps: nat): (c: Challenge)
    ensures c.target == 5000 && c.current >= 0.0
    ensures c.current <= c.target as real
    ensures c.completed <==> steps >= 5000
    ensures c.completed <==> c.current == c.target as real
    ensures !c.completed ==> c.current == steps as real
  {
    Challenge("1", "Daily Sprint", "Reach 5,000 steps before 12 PM", 5000,
              (if steps < 5000 then steps else 5000) as real, "steps", "zap", steps >= 5000)
  }

  /** "Cardio King": 400 kcal; progress is the calorie count, capped.
      steps * 0.04 >= 400 is stated as 4 * steps >= 40000. */
  function CardioKing(steps: nat): (c: Challenge)
    ensures c.target == 400 && c.current >= 0.0
    ensures c.current <= c.target as real
    ensures c.completed <==> steps >= 10000
    ensures c.completed <==> c.current == c.target as real
    ensures !c.completed ==> c.current == Calories(steps) as real
  {
    var kcal := Calories(steps);
    Challenge("2", "Cardio King", "Burn 400 kcal in a single day", 400,
              (if kcal < 400 then kcal else 400) as real, "kcal", "flame", 4 * steps >= 40000)
  }

  /** "Marathon Week": fixed at 32.4 of 50 km and never completed. */
  function MarathonWeek(): (c: Challenge)
    ensures !c.completed && c.current < c.target as real
  {
    Challenge("3", "Marathon Week", "Complete 50km this week", 50, 32.4, "km", "target", false)
  }

  function ActiveChallenges(steps: nat): (cs: seq<Challenge>)
    ensures |cs| == 3
    ensures cs[0] == DailySprint(steps) && cs[1] == CardioKing(steps) && cs[2] == MarathonWeek()
    ensures forall k :: 0 <= k < 3 ==> cs[k].target > 0 && 0.0 <= cs[k].current <= cs[k].target as real
  {
    [DailySprint(steps), CardioKing(steps), MarathonWeek()]
  }

  /** Width of a progress bar in percent: Math.min(current / target * 100, 100). */
  function BarWidth(c: Challenge): (w: real)
    requires c.target > 0
    ensures w <= 100.0
    ensures w == 100.0 <==> c.current >= c.target as real
    ensures c.current >= 0.0 ==> w >= 0.0
    ensures c.current < c.target as real ==> w * (c.target as real) == c.current * 100.0
  {
    var raw := c.current / (c.target as real) * 100.0;
    BarWidthFull(c.current, c.target as real);
    if raw < 100.0 then raw else 100.0
  }

  lemma BarWidthFull(current: real, target: real)
    requires target > 0.0
    ensures current / target * 100.0 >= 100.0 <==> current >= target
    ensures current >= 0.0 ==> current / target * 100.0 >= 0.0
  {
    var q := current / target;
    assert q * target == current;
    if q >= 1.0 {
      assert q * target >= target;
    } else {
      assert q * target < target;
    }
  }

  /** A challenge is shown as completed exactly when its bar is full. */
  lemma CompletedIffFullBar(steps: nat, k: nat)
    requires k < 3
    ensures ActiveChallenges(steps)[k].completed <==> BarWidth(ActiveChallenges(steps)[k]) == 100.0
  {
  }

  /** Walking more never shortens a progress bar. */
  lemma BarWidthMonotone(s1: nat, s2: nat, k: nat)
    requires s1 <= s2 && k < 3
    ensures BarWidth(ActiveChallenges(s1)[k]) <= BarWidth(ActiveChallenges(s2)[k])
  {
    MetricsMonotone(s1, s2);
    var c1, c2 := ActiveChallenges(s1)[k], ActiveChallenges(s2)[k];
    assert c1.target == c2.target && c1.current <= c2.current;
    WidthMonotone(c1.current, c2.current, c1.target as real);
  }

  lemma WidthMonotone(x: real, y: real, t: real)
    requires t > 0.0 && x <= y
    ensures x / t * 100.0 <= y / t * 100.0
  {
    assert (x / t) * t == x && (y / t) * t == y;
  }

  /** The badge catalogue. */
  function Badges(): (bs: seq<Badge>)
    ensures |bs| == 4
  {
    [ Badge("b1", "First Steps", "\U{1F463}", Some("2023-10-01")),
      Badge("b2", "Early Bird", "\U{1F305}", None),
      Badge("b3", "10K Club", "\U{1F396}\U{FE0F}", None),
      Badge("b4", "Fire Starter", "\U{1F525}", None) ]
  }

  /** A badge is drawn as earned exactly when it has an earned date. */
  predicate ShownEarned(b: Badge) {
    b.earnedAt.Some?
  }

  lemma OnlyFirstStepsEarned(k: nat)
    requires k < |Badges()|
    ensures ShownEarned(Badges()[k]) <==> Badges()[k].name == "First Steps"
    ensures Badges()[0].name == "First Steps" && ShownEarned(Badges()[0])
  {
  }
}
