/**
 * Plan generation: `generatePlan` walks the days of a month, turning listed
 * work days into rest entries and giving every other day the next type of
 * the four-step training rotation; `generateAugRange` lays a fixed
 * day-to-type schedule over August 2025.
 *
 * `PlanDays` is the closed-form specification (day d of a training run gets
 * the rotation slot numbered by the training days before it); the method
 * `GeneratePlan` keeps the source's running counter and is proved to build
 * exactly that sequence.
 */
module PlanGenerator {
  import opened Calendar
  import opened Workout

  /** The training rotation. */
  const Cycle: seq<WorkoutType> := [StrengthA, Cardio, StrengthB, Yoga]

  /** The type that follows `t` in the rotation. */
  function NextInCycle(t: WorkoutType): WorkoutType {
    match t
    case StrengthA => Cardio
    case Cardio => StrengthB
    case StrengthB => Yoga
    case _ => StrengthA
  }

  /** Number of training (non-work) days among the days 1 .. d - 1. */
  function TrainingDaysBefore(workDays: set<int>, d: int): nat
    decreases d
  {
    if d <= 1 then 0
    else TrainingDaysBefore(workDays, d - 1) + (if d - 1 in workDays then 0 else 1)
  }

  /** The work days that name a day of an n-day month. */
  function WithinMonth(workDays: set<int>, n: int): set<int> {
    set e | e in workDays && 1 <= e <= n
  }

  /** The type of day-of-month `d`: REST on a work day, else the next rotation slot. */
  function DayKind(workDays: set<int>, d: int): WorkoutType {
    if d in workDays then Rest else Cycle[TrainingDaysBefore(workDays, d) % |Cycle|]
  }

  /** The entry the plan holds for day-of-month `d`. */
  function ScheduledDay(month: YearMonth, workDays: set<int>, d: nat): PlanDay {
    var date := Date(month.year, month.month, d);
    var t := DayKind(workDays, d);
    if d in workDays then PlanDay(date, Rest, "Work/Rest", [])
    else PlanDay(date, t, Label(t), Exercises(t))
  }

  /** Specification of the days `generatePlan` produces. */
  function PlanDays(month: YearMonth, workDays: set<int>): seq<PlanDay> {
    seq(LengthOfMonth(month), i requires 0 <= i => ScheduledDay(month, workDays, i + 1))
  }

  /** `generatePlan`: one pass over the days with a counter that only training days advance. */
  method GeneratePlan(month: YearMonth, workDays: set<int>) returns (plan: WorkoutPlan)
    ensures plan == WorkoutPlan(month, workDays, PlanDays(month, workDays))
  {
    var cycle := [StrengthA, Cardio, StrengthB, Yoga];
    var idx := 0;
    var days: seq<PlanDay> := [];
    var n := LengthOfMonth(month);
    var d := 1;
    while d <= n
      invariant 1 <= d <= n + 1
      invariant idx == TrainingDaysBefore(workDays, d)
      invariant |days| == d - 1
      invariant forall i :: 0 <= i < d - 1 ==> days[i] == ScheduledDay(month, workDays, i + 1)
    {
      var date := Date(month.year, month.month, d);
      if d in workDays {
        days := days + [PlanDay(date, Rest, "Work/Rest", [])];
      } else {
        var t := cycle[idx % |cycle|];
        assert t == DayKind(workDays, d);
        idx := idx + 1;
        days := days + [PlanDay(date, t, Label(t), Exercises(t))];
      }
      assert days[d - 1] == ScheduledDay(month, workDays, d);
      d := d + 1;
    }
    assert days == PlanDays(month, workDays);
    plan := WorkoutPlan(month, workDays, days);
  }

  /** A day list that has one entry per day of the month, in calendar order. */
  predicate CoversMonth(month: YearMonth, days: seq<PlanDay>) {
    && |days| == LengthOfMonth(month)
    && forall i :: 0 <= i < |days| ==> days[i].date == Date(month.year, month.month, i + 1)
  }

  /** A plan covering a month lists its dates strictly ascending, hence without duplicates. */
  lemma CoveredDatesAscend(month: YearMonth, days: seq<PlanDay>)
    requires CoversMonth(month, days)
    ensures forall i, j :: 0 <= i < j < |days| ==> Before(days[i].date, days[j].date)
    ensures forall i, j :: 0 <= i < j < |days| ==> days[i].date != days[j].date
  {
  }

  /** The generated plan has exactly one entry for each day of the month. */
  lemma PlanCoversMonth(month: YearMonth, workDays: set<int>)
    ensures CoversMonth(month, PlanDays(month, workDays))
  {
  }

  /** Work days become "Work/Rest" entries without exercises. */
  lemma WorkDaysAreRest(month: YearMonth, workDays: set<int>, i: nat)
    requires i < LengthOfMonth(month) && i + 1 in workDays
    ensures PlanDays(month, workDays)[i] == PlanDay(Date(month.year, month.month, i + 1), Rest, "Work/Rest", [])
  {
  }

  /**
   * Any other day takes the rotation slot numbered by the training days
   * before it; it is never REST and carries its type's label and exercises.
   */
  lemma TrainingDaysFollowCycle(month: YearMonth, workDays: set<int>, i: nat)
    requires i < LengthOfMonth(month) && i + 1 !in workDays
    ensures var day := PlanDays(month, workDays)[i];
      && day.kind == Cycle[TrainingDaysBefore(workDays, i + 1) % 4]
      && day.kind != Rest
      && day.summary == Label(day.kind)
      && day.items == Exercises(day.kind) && day.items != []
  {
  }

  /** Every entry, rest or training, shows its type's label and template list. */
  lemma EntriesMatchTheirType(month: YearMonth, workDays: set<int>)
    ensures forall i :: 0 <= i < LengthOfMonth(month) ==>
      PlanDays(month, workDays)[i].summary == Label(PlanDays(month, workDays)[i].kind)
      && PlanDays(month, workDays)[i].items == Exercises(PlanDays(month, workDays)[i].kind)
  {
  }

  /** Work days strictly between two training days consume no rotation slot. */
  lemma {:induction false} SlotsSkipWorkDays(workDays: set<int>, d1: int, d2: int)
    requires 1 <= d1 < d2 && d1 !in workDays
    requires forall e :: d1 < e < d2 ==> e in workDays
    ensures TrainingDaysBefore(workDays, d2) == TrainingDaysBefore(workDays, d1) + 1
  {
    if d2 > d1 + 1 {
      SlotsSkipWorkDays(workDays, d1, d2 - 1);
    }
  }

  /** Days before the first training day consume no rotation slot. */
  lemma {:induction false} NoSlotsBeforeFirstTraining(workDays: set<int>, d: int)
    requires forall e :: 1 <= e < d ==> e in workDays
    ensures TrainingDaysBefore(workDays, d) == 0
  {
    if d > 1 {
      NoSlotsBeforeFirstTraining(workDays, d - 1);
    }
  }

  lemma KindsRotate(workDays: set<int>, d1: int, d2: int)
    requires 1 <= d1 < d2 && d1 !in workDays && d2 !in workDays
    requires forall e :: d1 < e < d2 ==> e in workDays
    ensures DayKind(workDays, d2) == NextInCycle(DayKind(workDays, d1))
  {
    SlotsSkipWorkDays(workDays, d1, d2);
    var n := TrainingDaysBefore(workDays, d1);
    assert (n + 1) % 4 == if n % 4 == 3 then 0 else n % 4 + 1;
  }

  /**
   * The rotation: the first training day of the month is STRENGTH_A, and each
   * later training day takes the type after the previous training day's type,
   * however many work days lie between them.
   */
  lemma RotationSkipsRestDays(month: YearMonth, workDays: set<int>, i: nat, j: nat)
    requires i < j < LengthOfMonth(month)
    requires i + 1 !in workDays && j + 1 !in workDays
    requires forall e :: i + 1 < e < j + 1 ==> e in workDays
    ensures PlanDays(month, workDays)[j].kind == NextInCycle(PlanDays(month, workDays)[i].kind)
  {
    KindsRotate(workDays, i + 1, j + 1);
  }

  lemma FirstTrainingDayIsStrengthA(month: YearMonth, workDays: set<int>, i: nat)
    requires i < LengthOfMonth(month) && i + 1 !in workDays
    requires forall e :: 1 <= e < i + 1 ==> e in workDays
    ensures PlanDays(month, workDays)[i].kind == StrengthA
  {
    NoSlotsBeforeFirstTraining(workDays, i + 1);
  }

  /** Number of entries of type `t`. */
  function CountKind(days: seq<PlanDay>, t: WorkoutType): nat {
    if |days| == 0 then 0
    else CountKind(days[..|days| - 1], t) + (if days[|days| - 1].kind == t then 1 else 0)
  }

  /** Each of the first n days is either a work day or a training day. */
  lemma {:induction false} DaysSplit(workDays: set<int>, n: nat)
    ensures TrainingDaysBefore(workDays, n + 1) + |WithinMonth(workDays, n)| == n
  {
    if n > 0 {
      DaysSplit(workDays, n - 1);
      var before := WithinMonth(workDays, n - 1);
      assert n !in before;
      if n in workDays {
        assert WithinMonth(workDays, n) == before + {n};
      } else {
        assert WithinMonth(workDays, n) == before;
      }
    }
  }

  /**
   * The plan has one REST entry per work day inside the month and one
   * training entry per remaining day.
   */
  lemma {:induction false} RestDayCount(month: YearMonth, workDays: set<int>, n: nat)
    requires n <= LengthOfMonth(month)
    ensures CountKind(PlanDays(month, workDays)[..n], Rest) == |WithinMonth(workDays, n)|
    ensures n - CountKind(PlanDays(month, workDays)[..n], Rest) == TrainingDaysBefore(workDays, n + 1)
  {
    var days := PlanDays(month, workDays);
    if n > 0 {
      RestDayCount(month, workDays, n - 1);
      assert days[..n][..n - 1] == days[..n - 1];
      if n !in workDays {
        TrainingDaysFollowCycle(month, workDays, n - 1);
      }
    }
    DaysSplit(workDays, n);
  }

  /** Work days outside the month change nothing in the rotation. */
  lemma {:induction false} SlotsIgnoreOutOfRange(workDays: set<int>, n: nat, d: int)
    requires d <= n + 1
    ensures TrainingDaysBefore(workDays, d)
         == TrainingDaysBefore(WithinMonth(workDays, n), d)
    decreases d
  {
    if d > 1 {
      SlotsIgnoreOutOfRange(workDays, n, d - 1);
    }
  }

  /** Work-day numbers outside 1 .. lengthOfMonth are ignored. */
  lemma OutOfRangeWorkDaysIgnored(month: YearMonth, workDays: set<int>)
    ensures PlanDays(month, workDays)
         == PlanDays(month, WithinMonth(workDays, LengthOfMonth(month)))
  {
    var n := LengthOfMonth(month);
    forall d | 1 <= d <= n
      ensures TrainingDaysBefore(workDays, d)
           == TrainingDaysBefore(WithinMonth(workDays, n), d)
    {
      SlotsIgnoreOutOfRange(workDays, n, d);
    }
  }

  const September2025 := YearMonth(2025, 9)

  lemma PlanDayKind(month: YearMonth, workDays: set<int>, i: nat)
    requires i < LengthOfMonth(month)
    ensures PlanDays(month, workDays)[i].kind == DayKind(workDays, i + 1)
  {
  }

  /** Over the whole month: one REST entry per work day inside it. */
  lemma RestDayTotal(month: YearMonth, workDays: set<int>)
    ensures CountKind(PlanDays(month, workDays), Rest) == |WithinMonth(workDays, LengthOfMonth(month))|
  {
    var days := PlanDays(month, workDays);
    RestDayCount(month, workDays, |days|);
    assert days[..|days|] == days;
  }

  lemma SeptemberWorkDays()
    ensures |WithinMonth(DefaultWorkDays(September2025), 30)| == 9
  {
    assert WithinMonth(DefaultWorkDays(September2025), 30) == {8, 9, 12, 15, 16, 17, 19, 23, 26};
  }

  /** September 2025 with the built-in work days: 30 entries, 9 REST and 21 training days. */
  lemma SeptemberCounts()
    ensures var days := PlanDays(September2025, DefaultWorkDays(September2025));
      && |days| == 30
      && CountKind(days, Rest) == 9
      && |days| - CountKind(days, Rest) == 21
  {
    RestDayTotal(September2025, DefaultWorkDays(September2025));
    SeptemberWorkDays();
  }

  lemma SeptemberFirstKinds()
    ensures var w := DefaultWorkDays(September2025);
      DayKind(w, 1) == StrengthA && DayKind(w, 2) == Cardio && DayKind(w, 3) == StrengthB && DayKind(w, 4) == Yoga
  {
    var w := DefaultWorkDays(September2025);
    assert 1 !in w && 2 !in w && 3 !in w && 4 !in w;
    assert TrainingDaysBefore(w, 2) == 1;
    assert TrainingDaysBefore(w, 3) == 2;
    assert TrainingDaysBefore(w, 4) == 3;
  }

  /** ... and its rotation opens STRENGTH_A, CARDIO, STRENGTH_B, YOGA on days 1-4. */
  lemma SeptemberOpening()
    ensures var days := PlanDays(September2025, DefaultWorkDays(September2025));
      && days[0].kind == StrengthA && days[1].kind == Cardio
      && days[2].kind == StrengthB && days[3].kind == Yoga
  {
    var w := DefaultWorkDays(September2025);
    SeptemberFirstKinds();
    PlanDayKind(September2025, w, 0);
    PlanDayKind(September2025, w, 1);
    PlanDayKind(September2025, w, 2);
    PlanDayKind(September2025, w, 3);
  }

  /** The entries of an explicit day-to-type schedule; unscheduled days are REST "—". */
  function ExplicitRangeDays(month: YearMonth, schedule: map<int, WorkoutType>): seq<PlanDay> {
    seq(LengthOfMonth(month), i requires 0 <= i =>
      var d := i + 1;
      var date := Date(month.year, month.month, d);
      if d !in schedule then PlanDay(date, Rest, "\U{2014}", [])
      else PlanDay(date, schedule[d], Label(schedule[d]), Exercises(schedule[d])))
  }

  const August2025 := YearMonth(2025, 8)

  const AugSchedule: map<int, WorkoutType> := map[
    22 := StrengthA, 23 := Yoga, 24 := Cardio, 25 := StrengthB, 26 := Yoga,
    27 := StrengthA, 28 := Cardio, 29 := StrengthB, 30 := Yoga, 31 := StrengthA]

  /** `generateAugRange`. */
  function GenerateAugRange(): (plan: WorkoutPlan)
    ensures plan.month == August2025 && plan.workDays == {}
    ensures CoversMonth(August2025, plan.days) && |plan.days| == 31
  {
    WorkoutPlan(August2025, {}, ExplicitRangeDays(August2025, AugSchedule))
  }

  lemma AugScheduleShape()
    ensures forall d :: d in AugSchedule <==> 22 <= d <= 31
    ensures forall d :: d in AugSchedule ==> AugSchedule[d] != Rest
  {
  }

  /**
   * August 2025: days 1-21 are REST "—" without exercises; days 22-31 get
   * their scheduled type, which is never REST, with its label and exercises.
   */
  lemma AugRangeShape()
    ensures var days := GenerateAugRange().days;
      && (forall i :: 0 <= i < 21 ==> days[i].kind == Rest && days[i].summary == "\U{2014}" && days[i].items == [])
      && (forall i :: 21 <= i < 31 ==>
            && days[i].kind == AugSchedule[i + 1] && days[i].kind != Rest
            && days[i].summary == Label(days[i].kind) && days[i].items == Exercises(days[i].kind))
  {
    AugScheduleShape();
  }

  lemma AugDayIsRest(i: nat)
    requires i < 31
    ensures GenerateAugRange().days[i].kind == Rest <==> i < 21
  {
    AugScheduleShape();
  }

  /** A sequence whose first n entries, and only those, have type t counts n of them. */
  lemma CountLeading(days: seq<PlanDay>, t: WorkoutType, n: nat)
    requires n <= |days|
    requires forall i :: 0 <= i < |days| ==> (days[i].kind == t <==> i < n)
    ensures CountKind(days, t) == n
  {
    var k := 0;
    while k < |days|
      invariant 0 <= k <= |days|
      invariant CountKind(days[..k], t) == if k <= n then k else n
    {
      assert days[..k + 1][..k] == days[..k];
      k := k + 1;
    }
    assert days[..|days|] == days;
  }

  /** Of its 31 entries, 21 are REST and 10 are training days. */
  lemma AugRangeCounts()
    ensures CountKind(GenerateAugRange().days, Rest) == 21
  {
    var days := GenerateAugRange().days;
    forall i | 0 <= i < |days| ensures days[i].kind == Rest <==> i < 21 {
      AugDayIsRest(i);
    }
    CountLeading(days, Rest, 21);
  }
}
