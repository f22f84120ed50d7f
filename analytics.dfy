/** The analytics view: the last seven days as chart points, their total and
    rounded average step count, and which bars are highlighted. */
module Analytics {
  import opened JsBuiltins
  import opened Types

  /** A chart point; its weekday label is presentation only. */
  datatype ChartPoint = ChartPoint(steps: nat, calories: nat, distance: nat)

  function PointOf(day: ActivityDay): ChartPoint {
    ChartPoint(day.steps, day.calories, day.distance)
  }

  /** history.slice(-7).map(...): the last min(7, n) days, in order, each with
      its own steps, calories and distance. */
  function ChartData(history: seq<ActivityDay>): (points: seq<ChartPoint>)
    ensures |points| == if |history| < 7 then |history| else 7
    ensures forall k :: 0 <= k < |points| ==>
      && points[k].steps == history[|history| - |points| + k].steps
      && points[k].calories == history[|history| - |points| + k].calories
      && points[k].distance == history[|history| - |points| + k].distance
  {
    var window := SliceLast(history, 7);
    seq(|window|, k requires 0 <= k < |window| => PointOf(window[k]))
  }

  /** chartData.reduce((acc, curr) => acc + curr.steps, 0). */
  function TotalSteps(points: seq<ChartPoint>): nat {
    if points == [] then 0 else TotalSteps(points[..|points| - 1]) + points[|points| - 1].steps
  }

  /** reduce((acc, curr) => acc + curr.steps, acc) as the callback applies
      it: front to back, carrying the accumulator. */
  function ReduceSteps(acc: nat, points: seq<ChartPoint>): nat
    decreases |points|
  {
    if points == [] then acc else ReduceSteps(acc + points[0].steps, points[1..])
  }

  lemma {:induction false} TotalStepsCons(x: ChartPoint, rest: seq<ChartPoint>)
    ensures TotalSteps([x] + rest) == x.steps + TotalSteps(rest)
  {
    if rest != [] {
      var init := rest[..|rest| - 1];
      assert ([x] + rest)[..|[x] + rest| - 1] == [x] + init;
      TotalStepsCons(x, init);
    } else {
      assert [x] + rest == [x];
      assert [x][..0] == [];
    }
  }

  /** The accumulator fold the code runs equals the total, for every start
      value; from 0 it is exactly totalSteps. */
  lemma {:induction false} ReduceIsTotal(acc: nat, points: seq<ChartPoint>)
    ensures ReduceSteps(acc, points) == acc + TotalSteps(points)
    decreases |points|
  {
    if points != [] {
      ReduceIsTotal(acc + points[0].steps, points[1..]);
      assert [points[0]] + points[1..] == points;
      TotalStepsCons(points[0], points[1..]);
    }
  }

  /** Math.round(totalSteps / chartData.length); NaN for an empty chart. */
  function AvgSteps(points: seq<ChartPoint>): (avg: JsInt)
    ensures avg.Int? <==> |points| > 0
    ensures |points| > 0 ==>
      (avg.value as real) - 0.5 <= (TotalSteps(points) as real) / (|points| as real) < (avg.value as real) + 0.5
  {
    if |points| == 0 then NaN else Int(RoundRatio(TotalSteps(points), |points|))
  }

  /** Bar k is drawn in the highlight colour: entry.steps > avgSteps. */
  predicate Highlighted(points: seq<ChartPoint>, k: nat)
    requires k < |points|
  {
    var avg := AvgSteps(points);
    avg.Int? && points[k].steps > avg.value
  }

  /** The smallest step count of a non-empty chart. */
  function MinSteps(points: seq<ChartPoint>): (m: nat)
    requires |points| > 0
    ensures exists k :: 0 <= k < |points| && points[k].steps == m
    ensures forall k :: 0 <= k < |points| ==> m <= points[k].steps
  {
    if |points| == 1 then points[0].steps
    else
      var m := MinSteps(points[..|points| - 1]);
      var last := points[|points| - 1].steps;
      assert forall k :: 0 <= k < |points| - 1 ==> points[k] == points[..|points| - 1][k];
      if last < m then last else m
  }

  /** The largest step count of a non-empty chart. */
  function MaxSteps(points: seq<ChartPoint>): (m: nat)
    requires |points| > 0
    ensures exists k :: 0 <= k < |points| && points[k].steps == m
    ensures forall k :: 0 <= k < |points| ==> points[k].steps <= m
  {
    if |points| == 1 then points[0].steps
    else
      var m := MaxSteps(points[..|points| - 1]);
      var last := points[|points| - 1].steps;
      assert forall k :: 0 <= k < |points| - 1 ==> points[k] == points[..|points| - 1][k];
      if last > m then last else m
  }

  lemma {:induction false} TotalAtMost(points: seq<ChartPoint>, bound: nat)
    requires forall k :: 0 <= k < |points| ==> points[k].steps <= bound
    ensures TotalSteps(points) <= |points| * bound
  {
    if points != [] {
      var init := points[..|points| - 1];
      assert forall k :: 0 <= k < |init| ==> init[k] == points[k];
      TotalAtMost(init, bound);
    }
  }

  lemma {:induction false} TotalAtLeast(points: seq<ChartPoint>, bound: nat)
    requires forall k :: 0 <= k < |points| ==> bound <= points[k].steps
    ensures |points| * bound <= TotalSteps(points)
  {
    if points != [] {
      var init := points[..|points| - 1];
      assert forall k :: 0 <= k < |init| ==> init[k] == points[k];
      TotalAtLeast(init, bound);
    }
  }

  lemma RatioBetween(total: nat, len: nat, lo: nat, hi: nat)
    requires len > 0 && len * lo <= total <= len * hi
    ensures (lo as real) <= (total as real) / (len as real) <= (hi as real)
  {
    var q := (total as real) / (len as real);
    assert q * (len as real) == total as real;
    assert (len as real) * (lo as real) <= total as real <= (len as real) * (hi as real);
  }

  /** The rounded average lies between the smallest and the largest day. */
  lemma AvgWithinRange(points: seq<ChartPoint>)
    requires |points| > 0
    ensures MinSteps(points) <= AvgSteps(points).value <= MaxSteps(points)
  {
    var lo, hi := MinSteps(points), MaxSteps(points);
    TotalAtLeast(points, lo);
    TotalAtMost(points, hi);
    RatioBetween(TotalSteps(points), |points|, lo, hi);
  }

  /** The day with the fewest steps is never highlighted, so a chart with data
      always has a bar in the plain colour. */
  lemma SomeBarPlain(points: seq<ChartPoint>)
    requires |points| > 0
    ensures exists k :: 0 <= k < |points| && !Highlighted(points, k)
  {
    AvgWithinRange(points);
    var k :| 0 <= k < |points| && points[k].steps == MinSteps(points);
    assert !Highlighted(points, k);
  }

  /** When every day has the same count, the average is that count and no bar
      is highlighted. */
  lemma EvenWeekNothingHighlighted(points: seq<ChartPoint>, steps: nat)
    requires |points| > 0
    requires forall k :: 0 <= k < |points| ==> points[k].steps == steps
    ensures AvgSteps(points) == Int(steps)
    ensures forall k :: 0 <= k < |points| ==> !Highlighted(points, k)
  {
    AvgWithinRange(points);
    var i :| 0 <= i < |points| && points[i].steps == MinSteps(points);
    var j :| 0 <= j < |points| && points[j].steps == MaxSteps(points);
  }

  /** Two days of 3 and 4 steps average 3.5, which Math.round takes up to 4. */
  lemma HalfRoundsUp()
    ensures AvgSteps([ChartPoint(3, 0, 0), ChartPoint(4, 0, 0)]) == Int(4)
  {
    var p := [ChartPoint(3, 0, 0), ChartPoint(4, 0, 0)];
    assert p[..1] == [ChartPoint(3, 0, 0)];
    assert TotalSteps(p) == 7;
  }
}
