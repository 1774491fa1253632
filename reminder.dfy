/**
 * `todaySummary`: the text of the daily reminder, taken from the plan entry
 * for today's date. The clock is not modelled: "today" is a parameter.
 */
module Reminder {
  import opened Calendar
  import opened Workout
  import opened PlanGenerator

  const Fallback := "Your plan awaits!"

  /** Kotlin's `find`: the first entry dated `today`, if any. */
  function FindByDate(days: seq<PlanDay>, today: Date): (found: Option<PlanDay>)
    ensures found.None? <==> forall i :: 0 <= i < |days| ==> days[i].date != today
    ensures found.Some? ==>
      exists i :: 0 <= i < |days| && days[i] == found.value && days[i].date == today
        && (forall j :: 0 <= j < i ==> days[j].date != today)
  {
    if |days| == 0 then None
    else if days[0].date == today then Some(days[0])
    else
      var rest := FindByDate(days[1..], today);
      if rest.Some? then
        var i :| 0 <= i < |days[1..]| && days[1..][i] == rest.value
          && days[1..][i].date == today && forall j :: 0 <= j < i ==> days[1..][j].date != today;
        assert days[i + 1] == rest.value;
        rest
      else rest
  }

  /** `todaySummary`: the summary of the first entry dated today, else the fallback text. */
  function TodaySummary(plan: WorkoutPlan, today: Date): (text: string)
    ensures (forall i :: 0 <= i < |plan.days| ==> plan.days[i].date != today) ==> text == Fallback
    ensures forall i ::
      (0 <= i < |plan.days| && plan.days[i].date == today
        && (forall j :: 0 <= j < i ==> plan.days[j].date != today)) ==> text == plan.days[i].summary
  {
    match FindByDate(plan.days, today)
    case Some(day) => day.summary
    case None => Fallback
  }

  /**
   * For a generated plan, a date inside the month reminds of that day's entry
   * (its type's label, "Work/Rest" on a work day); any other date gets the
   * fallback text.
   */
  lemma TodayInGeneratedPlan(month: YearMonth, workDays: set<int>, today: Date)
    ensures var text := TodaySummary(WorkoutPlan(month, workDays, PlanDays(month, workDays)), today);
      if today.year == month.year && today.month == month.month && 1 <= today.day <= LengthOfMonth(month)
      then text == Label(DayKind(workDays, today.day))
      else text == Fallback
  {
    var days := PlanDays(month, workDays);
    PlanCoversMonth(month, workDays);
    EntriesMatchTheirType(month, workDays);
    if today.year == month.year && today.month == month.month && 1 <= today.day <= LengthOfMonth(month) {
      var i := today.day - 1;
      assert days[i].date == today;
      PlanDayKind(month, workDays, i);
    }
  }

  /** On 1 September 2025 the reminder announces STRENGTH_A ... */
  lemma FirstOfSeptemberReminder()
    ensures var w := DefaultWorkDays(September2025);
      TodaySummary(WorkoutPlan(September2025, w, PlanDays(September2025, w)), Date(2025, 9, 1))
        == "Strength A (Deadlift + Pull)"
  {
    TodayInGeneratedPlan(September2025, DefaultWorkDays(September2025), Date(2025, 9, 1));
  }

  /** ... and on 8 September, a work day, it reads "Work/Rest". */
  lemma EighthOfSeptemberReminder()
    ensures var w := DefaultWorkDays(September2025);
      TodaySummary(WorkoutPlan(September2025, w, PlanDays(September2025, w)), Date(2025, 9, 8))
        == "Work/Rest"
  {
    TodayInGeneratedPlan(September2025, DefaultWorkDays(September2025), Date(2025, 9, 8));
  }
}
