/**
 * The progression advisor: from the best weight lifted and the average RPE
 * (rate of perceived exertion) of an exercise, the load to try next time.
 *
 * The average RPE is a Kotlin Double that is NaN when it averages no values;
 * every comparison with NaN is false, so NaN is kept as a value of its own.
 */
module Progression {

  /** An average RPE: a number, or NaN (the average of an empty list). */
  datatype Rpe = Rpe(value: real) | NaN

  /** `avgRpe <= bound` on a Double: false for NaN. */
  predicate AtMost(avgRpe: Rpe, bound: real) {
    avgRpe.Rpe? && avgRpe.value <= bound
  }

  /**
   * `recommendNextLoad`: no recommendation (0) without a positive best
   * weight; otherwise +2.5 kg at RPE 7 or easier, +1 kg up to RPE 8.5, and
   * the same weight beyond that (or when the RPE is NaN). What each screen
   * shows for the result is `DayCardLine` and `SummaryLine`.
   */
  function RecommendNextLoad(bestKg: real, avgRpe: Rpe): (next: real)
    ensures bestKg <= 0.0 ==> next == 0.0
    ensures bestKg > 0.0 ==> bestKg <= next <= bestKg + 2.5
    ensures bestKg > 0.0 ==> (next > bestKg <==> AtMost(avgRpe, 8.5))
    ensures bestKg > 0.0 ==> (next == bestKg + 2.5 <==> AtMost(avgRpe, 7.0))
  {
    if bestKg <= 0.0 then 0.0
    else if AtMost(avgRpe, 7.0) then bestKg + 2.5
    else if AtMost(avgRpe, 8.5) then bestKg + 1.0
    else bestKg
  }

  /** A heavier best never lowers the recommendation. */
  lemma NonDecreasingInBest(b1: real, b2: real, avgRpe: Rpe)
    requires b1 <= b2
    ensures RecommendNextLoad(b1, avgRpe) <= RecommendNextLoad(b2, avgRpe)
  {
  }

  /** A harder session never raises the recommendation. */
  lemma NonIncreasingInRpe(best: real, r1: real, r2: real)
    requires r1 <= r2
    ensures RecommendNextLoad(best, Rpe(r1)) >= RecommendNextLoad(best, Rpe(r2))
  {
  }

  /** The increment is one of three steps, chosen by the RPE band alone. */
  lemma Increments(best: real, rpe: real)
    requires best > 0.0
    ensures RecommendNextLoad(best, Rpe(rpe)) - best
         == if rpe <= 7.0 then 2.5 else if rpe <= 8.5 then 1.0 else 0.0
  {
  }

  /** The worked examples: 100 kg at RPE 6, 8 and 9, and no best weight at all. */
  lemma Examples(avgRpe: Rpe)
    ensures RecommendNextLoad(100.0, Rpe(6.0)) == 102.5
    ensures RecommendNextLoad(100.0, Rpe(8.0)) == 101.0
    ensures RecommendNextLoad(100.0, Rpe(9.0)) == 100.0
    ensures RecommendNextLoad(0.0, avgRpe) == 0.0
  {
  }

  /** The day card replaces a NaN average by 0 before asking for advice. */
  function DayCardRpe(avgRpe: Rpe): (r: Rpe)
    ensures r.Rpe?
    ensures avgRpe.Rpe? ==> r == avgRpe
  {
    if avgRpe.NaN? then Rpe(0.0) else avgRpe
  }

  /** The day card's advice: "Try ~kg next time", or "Repeat best kg". */
  datatype DayCardText = TryNext(kg: real) | RepeatBest(kg: real)

  /**
   * The day card's line: it asks with the NaN average replaced by 0, and
   * suggests the result only when it is positive and above the best weight.
   */
  function DayCardLine(best: real, avgRpe: Rpe): (line: DayCardText)
    ensures line.TryNext? <==> best > 0.0 && AtMost(DayCardRpe(avgRpe), 8.5)
    ensures line.TryNext? ==> best < line.kg <= best + 2.5
    ensures line.RepeatBest? ==> line.kg == best
  {
    var next := RecommendNextLoad(best, DayCardRpe(avgRpe));
    if next > 0.0 && next > best then TryNext(next) else RepeatBest(best)
  }

  /** The summary screen's column: "Next: kg", or "Next: repeat". */
  datatype SummaryText = NextKg(kg: real) | RepeatNext

  /**
   * The summary screen's column: it shows the result whenever it is
   * positive, even when it equals the best weight.
   */
  function SummaryLine(best: real, avgRpe: Rpe): (line: SummaryText)
    ensures line.RepeatNext? <==> best <= 0.0
    ensures line.NextKg? ==> best <= line.kg <= best + 2.5
    ensures line.NextKg? ==> (line.kg == best <==> !AtMost(avgRpe, 8.5))
  {
    var next := RecommendNextLoad(best, avgRpe);
    if next > 0.0 then NextKg(next) else RepeatNext
  }

  /**
   * With an RPE logged, the two screens agree: the day card suggests a new
   * load exactly when the summary shows one above the best weight.
   */
  lemma ScreensAgree(best: real, rpe: real)
    ensures DayCardLine(best, Rpe(rpe)).TryNext?
        <==> SummaryLine(best, Rpe(rpe)).NextKg? && SummaryLine(best, Rpe(rpe)).kg > best
    ensures DayCardLine(best, Rpe(rpe)).TryNext? ==>
              DayCardLine(best, Rpe(rpe)).kg == SummaryLine(best, Rpe(rpe)).kg
  {
  }

  /**
   * With no weight logged the best weight is 0, and both screens say to
   * repeat whatever the RPE: the day card "Repeat best 0.0 kg", the summary
   * "Next: repeat".
   */
  lemma NoWeightAdvice(avgRpe: Rpe)
    ensures DayCardLine(0.0, avgRpe) == RepeatBest(0.0)
    ensures SummaryLine(0.0, avgRpe) == RepeatNext
  {
  }

  /**
   * With a positive best weight and no RPE logged, the day card suggests
   * +2.5 kg (it counts the missing RPE as 0) while the summary screen, which
   * passes the NaN average on, shows the best weight itself as the next load.
   */
  lemma NoRpeAdvice(best: real)
    requires best > 0.0
    ensures RecommendNextLoad(best, DayCardRpe(NaN)) == best + 2.5
    ensures RecommendNextLoad(best, NaN) == best
    ensures DayCardLine(best, NaN) == TryNext(best + 2.5)
    ensures SummaryLine(best, NaN) == NextKg(best)
  {
  }
}
