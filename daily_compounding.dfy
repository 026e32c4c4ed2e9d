/** The daily-compounding projector: grow a starting amount by a daily rate
    until it reaches a target, stopping after at most 365 days, and turn the
    day-by-day trajectory into the payload of a "plan" to-do row. */
module DailyCompounding {
  import opened Strings
  import Todo

  /** The hard ceiling on the number of simulated days. */
  const MaxDays: nat := 365

  datatype DayAmount = DayAmount(day: nat, amount: real)

  /** The page's CompoundResult record. */
  datatype CompoundResult = CompoundResult(
    days: nat,
    finalAmount: real,
    dailyBreakdown: seq<DayAmount>,
    startingAmount: real,
    targetAmount: real,
    dailyRate: real)

  /** One day's growth factor for a rate given in percent. */
  function Growth(rate: real): real {
    1.0 + rate / 100.0
  }

  /** The amount after `n` days of compounding. */
  function AmountAfter(start: real, rate: real, n: nat): real {
    if n == 0 then start else AmountAfter(start, rate, n - 1) * Growth(rate)
  }

  /** What a projection promises: the number of days is the first day on
      which the target is reached, or the ceiling; the breakdown lists every
      day from 1 with the compounded amount; the final amount is that of the
      last day (the start when no day was simulated); the inputs are echoed. */
  predicate IsProjection(start: real, target: real, rate: real, r: CompoundResult) {
    && r.days <= MaxDays
    && (forall n: nat :: n < r.days ==> AmountAfter(start, rate, n) < target)
    && (r.days == MaxDays || AmountAfter(start, rate, r.days) >= target)
    && |r.dailyBreakdown| == r.days
    && (forall k :: 0 <= k < r.days ==> r.dailyBreakdown[k] == DayAmount(k + 1, AmountAfter(start, rate, k + 1)))
    && r.finalAmount == AmountAfter(start, rate, r.days)
    && r.startingAmount == start && r.targetAmount == target && r.dailyRate == rate
  }

  /** `calculateCompounding`, on the already-parsed numbers. */
  method CalculateCompounding(start: real, target: real, rate: real) returns (r: CompoundResult)
    ensures IsProjection(start, target, rate, r)
    ensures r.days <= MaxDays && |r.dailyBreakdown| == r.days
    ensures r.days < MaxDays ==> r.finalAmount >= target
    ensures start >= target ==> r.days == 0 && r.dailyBreakdown == []
  {
    var amount := start;
    var days: nat := 0;
    var breakdown: seq<DayAmount> := [];
    while amount < target && days < MaxDays
      invariant days <= MaxDays
      invariant amount == AmountAfter(start, rate, days)
      invariant forall n: nat :: n < days ==> AmountAfter(start, rate, n) < target
      invariant |breakdown| == days
      invariant forall k :: 0 <= k < days ==> breakdown[k] == DayAmount(k + 1, AmountAfter(start, rate, k + 1))
      decreases MaxDays - days
    {
      amount := amount * (1.0 + rate / 100.0);
      days := days + 1;
      breakdown := breakdown + [DayAmount(days, amount)];
    }
    r := CompoundResult(days, amount, breakdown, start, target, rate);
    ProjectionShape(start, target, rate, r);
  }

  /** The day-by-day facts a projection implies. */
  lemma ProjectionShape(start: real, target: real, rate: real, r: CompoundResult)
    requires IsProjection(start, target, rate, r)
    ensures r.finalAmount == if r.days == 0 then start else r.dailyBreakdown[r.days - 1].amount
    ensures start >= target ==> r.days == 0 && r.dailyBreakdown == []
    ensures r.days < MaxDays ==> r.finalAmount >= target
    ensures forall k :: 0 <= k < r.days - 1 ==> r.dailyBreakdown[k].amount < target
    ensures r.days > 0 ==> r.dailyBreakdown[0].amount == start * Growth(rate)
    ensures forall k :: 0 < k < r.days ==>
              r.dailyBreakdown[k].amount == r.dailyBreakdown[k - 1].amount * Growth(rate)
  {
    assert r.days > 0 ==> AmountAfter(start, rate, 0) < target;
  }

  /** The number of days, and with it the whole result, is determined by the inputs. */
  lemma ProjectionUnique(start: real, target: real, rate: real, r1: CompoundResult, r2: CompoundResult)
    requires IsProjection(start, target, rate, r1) && IsProjection(start, target, rate, r2)
    ensures r1 == r2
  {
    assert r1.days < r2.days ==> AmountAfter(start, rate, r1.days) < target;
    assert r2.days < r1.days ==> AmountAfter(start, rate, r2.days) < target;
    assert r1.dailyBreakdown == r2.dailyBreakdown;
  }

  /** With a positive start and a positive rate every day ends higher than the one before. */
  lemma {:induction false} AmountsIncrease(start: real, rate: real, i: nat, j: nat)
    requires start > 0.0 && rate > 0.0 && i < j
    ensures 0.0 < AmountAfter(start, rate, i) < AmountAfter(start, rate, j)
    decreases j
  {
    AmountPositive(start, rate, j - 1);
    var prev := AmountAfter(start, rate, j - 1);
    assert prev * Growth(rate) == prev + prev * (rate / 100.0);
    assert prev * (rate / 100.0) > 0.0;
    if i < j - 1 {
      AmountsIncrease(start, rate, i, j - 1);
    }
  }

  lemma {:induction false} AmountPositive(start: real, rate: real, n: nat)
    requires start > 0.0 && rate > -100.0
    ensures AmountAfter(start, rate, n) > 0.0
  {
    if n > 0 {
      AmountPositive(start, rate, n - 1);
      assert Growth(rate) > 0.0;
    }
  }

  /** Hence the breakdown of a projection with positive start and rate strictly increases. */
  lemma BreakdownIncreases(start: real, target: real, rate: real, r: CompoundResult, i: nat, j: nat)
    requires IsProjection(start, target, rate, r)
    requires start > 0.0 && rate > 0.0 && i < j < r.days
    ensures r.dailyBreakdown[i].amount < r.dailyBreakdown[j].amount
  {
    AmountsIncrease(start, rate, i + 1, j + 1);
  }

  /** A daily loss of at most 100% never lets the amount grow. */
  lemma {:induction false} AmountNeverGrows(start: real, rate: real, n: nat)
    requires start >= 0.0 && -100.0 <= rate <= 0.0
    ensures 0.0 <= AmountAfter(start, rate, n) <= start
  {
    if n > 0 {
      AmountNeverGrows(start, rate, n - 1);
      var prev, g := AmountAfter(start, rate, n - 1), Growth(rate);
      assert 0.0 <= g <= 1.0;
      assert prev - prev * g == prev * (1.0 - g);
      MulNonNegative(prev, 1.0 - g);
      MulNonNegative(prev, g);
    }
  }

  lemma MulNonNegative(a: real, b: real)
    requires a >= 0.0 && b >= 0.0
    ensures a * b >= 0.0
  {
  }

  /** A daily loss of at most 200% keeps the growth factor in [-1, 1], so the
      amount may change sign but never exceeds the start in size. */
  lemma {:induction false} AmountBounded(start: real, rate: real, n: nat)
    requires start >= 0.0 && -200.0 <= rate <= 0.0
    ensures -start <= AmountAfter(start, rate, n) <= start
  {
    if n > 0 {
      AmountBounded(start, rate, n - 1);
      ScaleBounded(AmountAfter(start, rate, n - 1), Growth(rate), start);
    }
  }

  /** Scaling by a factor in [-1, 1] keeps a value within [-bound, bound]:
      the two gaps to the bounds are sums of non-negative products. */
  lemma ScaleBounded(x: real, g: real, bound: real)
    requires -bound <= x <= bound && -1.0 <= g <= 1.0
    ensures -bound <= x * g <= bound
  {
    MulNonNegative(bound - x, 1.0 + g);
    MulNonNegative(bound + x, 1.0 - g);
    MulNonNegative(bound - x, 1.0 - g);
    MulNonNegative(bound + x, 1.0 + g);
    assert (bound - x) * (1.0 + g) + (bound + x) * (1.0 - g) == 2.0 * bound - 2.0 * (x * g);
    assert (bound - x) * (1.0 - g) + (bound + x) * (1.0 + g) == 2.0 * bound + 2.0 * (x * g);
  }

  /** So with a rate between -200% and 0 a target above the start is never
      reached: the projection runs to the ceiling and ends below the target. */
  lemma NonPositiveRateHitsCeiling(start: real, target: real, rate: real, r: CompoundResult)
    requires IsProjection(start, target, rate, r)
    requires start >= 0.0 && -200.0 <= rate <= 0.0 && start < target
    ensures r.days == MaxDays && r.finalAmount < target
  {
    AmountBounded(start, rate, r.days);
  }

  /** A loss steeper than 200% a day flips the sign of the amount each day and
      grows its size, so on even days it can overshoot a target the start was
      below: from 1 at -300% a day the target 2 is reached on day 2. */
  lemma SteepLossCanReachTarget(r: CompoundResult)
    requires IsProjection(1.0, 2.0, -300.0, r)
    ensures r.days == 2 && r.finalAmount == 4.0
  {
    assert AmountAfter(1.0, -300.0, 1) == -2.0;
    assert AmountAfter(1.0, -300.0, 2) == 4.0;
    assert AmountAfter(1.0, -300.0, 0) < 2.0;
  }

  /** The text of one plan entry; the amount's two-decimal locale rendering is `formatted`. */
  function DayLabel(day: nat, formatted: string): string {
    "Day - " + NatText(day) + ": " + formatted
  }

  /** The `textArray`/`completedArray` payload `addToTodoList` inserts as the
      plan row; `format` stands for the locale rendering of an amount. */
  function PlanPayload(breakdown: seq<DayAmount>, format: real -> string): (row: Todo.PlanRow)
    ensures |row.text| == |breakdown| && |row.completed| == |breakdown|
    ensures forall k :: 0 <= k < |breakdown| ==>
              row.text[k] == DayLabel(breakdown[k].day, format(breakdown[k].amount)) && !row.completed[k]
  {
    Todo.PlanRow(seq(|breakdown|, k requires 0 <= k < |breakdown| =>
                       DayLabel(breakdown[k].day, format(breakdown[k].amount))),
                 seq(|breakdown|, _ => false))
  }

  /** Exporting a projection and loading it on the to-do page gives one
      unchecked item per simulated day, labelled with that day. */
  lemma ExportedPlanLoadsUnchecked(start: real, target: real, rate: real, r: CompoundResult,
                                   format: real -> string)
    requires IsProjection(start, target, rate, r)
    ensures var items := Todo.LoadPlan(PlanPayload(r.dailyBreakdown, format));
            && |items| == r.days
            && Todo.CheckedUpTo(items, 0)
            && forall k :: 0 <= k < r.days ==>
                 items[k].id == Todo.PlanId(k)
                 && items[k].text == DayLabel(k + 1, format(AmountAfter(start, rate, k + 1)))
  {
  }
}
