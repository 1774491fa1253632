/**
 * The planner's data model: workout types, exercise templates, plan days and
 * plans, with the static lookup tables that give each type its display label
 * and its exercise list, and the built-in set of work (non-training) days.
 */
module Workout {
  import opened Calendar

  datatype Option<T> = None | Some(value: T)

  datatype WorkoutType = StrengthA | StrengthB | Cardio | Yoga | Rest

  /** An exercise template; `sets` is a Kotlin Int (3 when not given). */
  datatype ExerciseItem = ExerciseItem(name: string, sets: int, detail: Option<string>)

  /** One calendar day of a plan (`type` is a keyword here, so the field is `kind`). */
  datatype PlanDay = PlanDay(date: Date, kind: WorkoutType, summary: string, items: seq<ExerciseItem>)

  datatype WorkoutPlan = WorkoutPlan(month: YearMonth, workDays: set<int>, days: seq<PlanDay>)

  /** An exercise name that can sit inside a logged-set key and a CSV row unescaped. */
  predicate SafeName(name: string) {
    forall i :: 0 <= i < |name| ==> name[i] != '|' && name[i] != ',' && name[i] != '\n'
  }

  predicate DistinctNames(items: seq<ExerciseItem>) {
    forall i, j :: 0 <= i < j < |items| ==> items[i].name != items[j].name
  }

  /** `WorkoutType.toLabel()`. */
  function Label(t: WorkoutType): (s: string)
    ensures |s| > 0
  {
    match t
    case StrengthA => "Strength A (Deadlift + Pull)"
    case StrengthB => "Strength B (Squat + Push)"
    case Cardio => "Cardio"
    case Yoga => "Yoga / Recovery"
    case Rest => "Work/Rest"
  }

  /** Different types are announced with different labels. */
  lemma LabelInjective(t1: WorkoutType, t2: WorkoutType)
    requires Label(t1) == Label(t2)
    ensures t1 == t2
  {
  }

  function Item(name: string, sets: int, detail: string): ExerciseItem {
    ExerciseItem(name, sets, Some(detail))
  }

  /** What the app relies on in every template list. */
  predicate WellFormedTemplate(items: seq<ExerciseItem>) {
    && (forall i :: 0 <= i < |items| ==> items[i].sets >= 1 && SafeName(items[i].name))
    && DistinctNames(items)
  }

  /** Names told apart by their length or their first letter are distinct. */
  lemma DistinctByShape(items: seq<ExerciseItem>)
    requires forall i :: 0 <= i < |items| ==> |items[i].name| > 0
    requires forall i, j :: 0 <= i < j < |items| ==>
               |items[i].name| != |items[j].name| || items[i].name[0] != items[j].name[0]
    ensures DistinctNames(items)
  {
  }

  // The exercise names of the templates.
  const WarmUp: string := "Warm-up: bike/treadmill"
  const BarbellDeadlift: string := "Barbell Deadlift"
  const DumbbellBenchPress: string := "Dumbbell Bench Press"
  const OneArmDumbbellRow: string := "One-arm Dumbbell Row"
  const AssistedPullUps: string := "Assisted Pull-ups / Band"
  const BodyweightSquats: string := "Bodyweight Squats"
  const Plank: string := "Plank"
  const BarbellBackSquat: string := "Barbell Back Squat"
  const DumbbellShoulderPress: string := "Dumbbell Shoulder Press"
  const LegCurlMachine: string := "Leg Curl Machine"
  const DumbbellRdl: string := "Dumbbell RDL"
  const PushUps: string := "Push-ups (knees if needed)"
  const DeadBugs: string := "Dead Bugs"
  const PelotonRide: string := "Peloton ride OR Treadmill intervals"
  const MobilityFinisher: string := "Mobility finisher"
  const YogaSession: string := "Yoga (home/Peloton)"

  lemma StrengthANamesSafe()
    ensures SafeName(WarmUp) && SafeName(BarbellDeadlift) && SafeName(DumbbellBenchPress)
    ensures SafeName(OneArmDumbbellRow) && SafeName(AssistedPullUps) && SafeName(BodyweightSquats)
    ensures SafeName(Plank)
  {
    assert SafeName(WarmUp);
    assert SafeName(BarbellDeadlift);
    assert SafeName(DumbbellBenchPress);
    assert SafeName(OneArmDumbbellRow);
    assert SafeName(AssistedPullUps);
    assert SafeName(BodyweightSquats);
  }

  lemma StrengthBNamesSafe()
    ensures SafeName(BarbellBackSquat) && SafeName(DumbbellShoulderPress)
    ensures SafeName(LegCurlMachine) && SafeName(DumbbellRdl) && SafeName(PushUps) && SafeName(DeadBugs)
  {
    assert SafeName(BarbellBackSquat);
    assert SafeName(DumbbellShoulderPress);
    assert SafeName(LegCurlMachine);
    assert SafeName(DumbbellRdl);
    assert SafeName(PushUps);
  }

  const StrengthAItems: seq<ExerciseItem> := [
    Item(WarmUp, 1, "5 min"),
    Item(BarbellDeadlift, 3, "3\U{00D7}8 reps \U{2014} light to moderate"),
    Item(DumbbellBenchPress, 3, "3\U{00D7}10 reps"),
    Item(OneArmDumbbellRow, 3, "3\U{00D7}10 each side"),
    Item(AssistedPullUps, 3, "Max reps"),
    Item(BodyweightSquats, 3, "3\U{00D7}12 reps"),
    Item(Plank, 3, "3\U{00D7}30 sec")
  ]

  const StrengthBItems: seq<ExerciseItem> := [
    Item(WarmUp, 1, "5 min"),
    Item(BarbellBackSquat, 3, "3\U{00D7}8 reps \U{2014} light to moderate"),
    Item(DumbbellShoulderPress, 3, "3\U{00D7}10 reps"),
    Item(LegCurlMachine, 3, "3\U{00D7}12 reps"),
    Item(DumbbellRdl, 3, "3\U{00D7}10 reps"),
    Item(PushUps, 3, "Max reps"),
    Item(DeadBugs, 3, "3\U{00D7}10 each side")
  ]

  const CardioItems: seq<ExerciseItem> := [
    Item(PelotonRide, 1, "20\U{2013}30 min"),
    Item(MobilityFinisher, 1, "5\U{2013}10 min: cat-cow, hip openers, shoulder rolls")
  ]

  const YogaItems: seq<ExerciseItem> := [
    Item(YogaSession, 1, "30 min focus: flexibility & breath")
  ]

  lemma StrengthAWellFormed()
    ensures WellFormedTemplate(StrengthAItems)
  {
    StrengthANamesSafe();
    DistinctByShape(StrengthAItems);
  }

  lemma StrengthBWellFormed()
    ensures WellFormedTemplate(StrengthBItems)
  {
    StrengthANamesSafe();
    StrengthBNamesSafe();
    DistinctByShape(StrengthBItems);
  }

  lemma CardioAndYogaWellFormed()
    ensures WellFormedTemplate(CardioItems) && WellFormedTemplate(YogaItems)
  {
    assert SafeName(PelotonRide) && SafeName(MobilityFinisher) && SafeName(YogaSession);
  }

  /**
   * `WorkoutType.toExercises()`: every template has at least one set, names
   * are unique within a list and free of the key and CSV separators, and only
   * REST has no exercises.
   */
  function Exercises(t: WorkoutType): (items: seq<ExerciseItem>)
    ensures WellFormedTemplate(items)
    ensures items == [] <==> t == Rest
  {
    match t
    case StrengthA => StrengthAWellFormed(); StrengthAItems
    case StrengthB => StrengthBWellFormed(); StrengthBItems
    case Cardio => CardioAndYogaWellFormed(); CardioItems
    case Yoga => CardioAndYogaWellFormed(); YogaItems
    case Rest => []
  }

  /** Number of sets a template asks for; `(1..sets)` is empty when sets < 1. */
  function SetCount(item: ExerciseItem): nat {
    if item.sets > 0 then item.sets else 0
  }

  function SetsOf(items: seq<ExerciseItem>): nat {
    if |items| == 0 then 0 else SetsOf(items[..|items| - 1]) + SetCount(items[|items| - 1])
  }

  lemma StrengthSets(items: seq<ExerciseItem>)
    requires |items| == 7 && items[0].sets == 1
    requires forall i :: 1 <= i < 7 ==> items[i].sets == 3
    ensures SetsOf(items) == 19
  {
    assert items[..7] == items;
    var k := 1;
    while k < 7
      invariant 1 <= k <= 7 && SetsOf(items[..k]) == 3 * k - 2
    {
      assert items[..k + 1][..k] == items[..k];
      k := k + 1;
    }
  }

  /** Size of each template list and the sets a day of each type logs. */
  lemma ExerciseTable()
    ensures |Exercises(StrengthA)| == 7 && SetsOf(Exercises(StrengthA)) == 19
    ensures |Exercises(StrengthB)| == 7 && SetsOf(Exercises(StrengthB)) == 19
    ensures |Exercises(Cardio)| == 2 && SetsOf(Exercises(Cardio)) == 2
    ensures |Exercises(Yoga)| == 1 && SetsOf(Exercises(Yoga)) == 1
    ensures |Exercises(Rest)| == 0 && SetsOf(Exercises(Rest)) == 0
  {
    StrengthSets(StrengthAItems);
    StrengthSets(StrengthBItems);
    assert CardioItems[..1] == [CardioItems[0]];
  }

  /** `defaultWorkDays`: the built-in work days of September 2025, none elsewhere. */
  function DefaultWorkDays(month: YearMonth): (days: set<int>)
    ensures month != YearMonth(2025, 9) ==> days == {}
    ensures forall d :: d in days ==> 1 <= d <= LengthOfMonth(month)
  {
    if month == YearMonth(2025, 9) then {8, 9, 12, 15, 16, 17, 19, 23, 26} else {}
  }
}
