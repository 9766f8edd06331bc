/**
 * `ResponseFormatter` (utils/agent_utils.py): markdown renderings of a meal
 * plan, a workout plan and a goal analysis, each built with `+=` loops.
 *
 * Each formatter is a method with the source's loops, proved equal to a
 * text function; the properties are lemmas about those functions. The input
 * is a dict, as the source's annotation says.
 */
module ResponseFormatter {
  import opened Wrappers
  import opened PyStrings
  import opened PyValue

  const MealApology: string := "I couldn't generate a meal plan right now. Please try again."
  const WorkoutApology: string := "I couldn't generate a workout plan right now. Please try again."
  const GoalApology: string := "I couldn't analyze your goal right now. Please try again."

  const MealHeader: string := "\U{1F37D}\U{FE0F} **Your Personalized Meal Plan**\n\n"
  const NutritionHeader: string := "\U{1F4CA} **Nutrition Information:**\n"
  const WorkoutHeader: string := "\U{1F4AA} **Your Personalized Workout Plan**\n\n"
  const ExercisesHeader: string := "**Exercises:**\n"
  const DurationLabel: string := "\U{23F1}\U{FE0F} **Duration:** "
  const FrequencyLabel: string := "\U{1F4C5} **Frequency:** "
  const NotesLabel: string := "\U{1F4DD} **Notes:** "
  const GoalHeader: string := "\U{1F3AF} **Goal Analysis**\n\n"
  const StepsHeader: string := "**Action Steps:**\n"

  // ---------------------------------------------------------------- lines

  /** `"• " + text + "\n"`. */
  function Bullet(text: string): string {
    "\U{2022} " + text + "\n"
  }

  // ---------------------------------------------------------------- meal plan

  /** `f"• {key}: {value}\n"`. */
  function KeyValueLine(e: (string, Value)): string {
    Bullet(e.0 + ": " + Str(e.1))
  }

  /** A dict gives one line per entry; anything else one bullet line. */
  function InfoLines(info: Value): string {
    if info.VDict? then ConcatMap(info.entries, KeyValueLine) else Bullet(Str(info))
  }

  /** The title line of one meal. */
  function MealTitle(mealType: string): string {
    "**" + Title(mealType) + ":**\n"
  }

  /** One meal: its title-cased type, its lines and a blank line. */
  function MealBlock(meal: (string, Value)): string {
    MealTitle(meal.0) + InfoLines(meal.1) + "\n"
  }

  /** The meals part; `.items()` on a value that is not a dict raises `AttributeError`. */
  function MealsSection(plan: seq<(string, Value)>): Result<string, PyError> {
    match DictGet(plan, "meals")
    case None => Ok("")
    case Some(m) => if m.VDict? then Ok(ConcatMap(m.entries, MealBlock)) else Err(AttributeError)
  }

  function NutritionSection(plan: seq<(string, Value)>): string {
    match DictGet(plan, "nutrition")
    case None => ""
    case Some(n) => NutritionHeader + InfoLines(n)
  }

  /** `format_meal_plan`. */
  function MealPlanText(plan: seq<(string, Value)>): (r: Result<string, PyError>)
    ensures |plan| == 0 ==> r == Ok(MealApology)
    ensures r.Err? <==> |plan| > 0 && DictHas(plan, "meals") && !DictGet(plan, "meals").value.VDict?
    ensures r.Err? ==> r.error == AttributeError
    ensures |plan| > 0 && r.Ok? ==> StartsWith(r.value, MealHeader)
  {
    if |plan| == 0 then Ok(MealApology)
    else
      match MealsSection(plan)
      case Err(e) => Err(e)
      case Ok(meals) => Ok(MealHeader + meals + NutritionSection(plan))
  }

  /** Every meal type of a meal dict appears title-cased as a heading. */
  lemma MealTypesShown(plan: seq<(string, Value)>, i: nat)
    requires DictHas(plan, "meals") && DictGet(plan, "meals").value.VDict?
    requires i < |DictGet(plan, "meals").value.entries|
    ensures MealPlanText(plan).Ok?
    ensures Contains(MealPlanText(plan).value, MealTitle(DictGet(plan, "meals").value.entries[i].0))
  {
    var ms := DictGet(plan, "meals").value.entries;
    var t := MealTitle(ms[i].0);
    MealsShowTitle(ms, i);
    assert MealsSection(plan) == Ok(ConcatMap(ms, MealBlock));
    ContainsInfix(MealHeader, ConcatMap(ms, MealBlock), NutritionSection(plan), t);
  }

  /** The meals part holds the title line of each meal. */
  lemma MealsShowTitle(ms: seq<(string, Value)>, i: nat)
    requires i < |ms|
    ensures Contains(ConcatMap(ms, MealBlock), MealTitle(ms[i].0))
  {
    ConcatMapShows(ms, MealBlock, i);
    BlockShowsTitle(ms[i]);
    ContainsTrans(ConcatMap(ms, MealBlock), MealBlock(ms[i]), MealTitle(ms[i].0));
  }

  /** A meal's block holds its title line. */
  lemma BlockShowsTitle(meal: (string, Value))
    ensures Contains(MealBlock(meal), MealTitle(meal.0))
  {
    var t := MealTitle(meal.0);
    var rest := InfoLines(meal.1) + "\n";
    assert OccursAt(t, t, 0);
    ContainsAt(t, t);
    ContainsInfix("", t, rest, t);
    assert "" + t + rest == MealBlock(meal);
  }

  /** Appends the lines of one meal's information. */
  method AppendInfo(prefix: string, info: Value) returns (r: string)
    ensures r == prefix + InfoLines(info)
  {
    if info.VDict? {
      r := AppendMapped(prefix, info.entries, KeyValueLine);
    } else {
      r := prefix + Bullet(Str(info));
    }
  }

  /** Appends one meal: its title line, its information and a blank line. */
  method AppendMeal(prefix: string, meal: (string, Value)) returns (r: string)
    ensures r == prefix + MealBlock(meal)
  {
    r := prefix + MealTitle(meal.0);
    r := AppendInfo(r, meal.1);
    Assoc(prefix, MealTitle(meal.0), InfoLines(meal.1));
    r := r + "\n";
    Assoc(prefix, MealTitle(meal.0) + InfoLines(meal.1), "\n");
  }

  /** The loop over `meals.items()`. */
  method AppendMeals(prefix: string, ms: seq<(string, Value)>) returns (r: string)
    ensures r == prefix + ConcatMap(ms, MealBlock)
  {
    r := prefix;
    var i := 0;
    while i < |ms|
      invariant 0 <= i <= |ms|
      invariant r == prefix + ConcatMap(ms[..i], MealBlock)
    {
      ConcatMapStep(ms, MealBlock, i);
      Assoc(prefix, ConcatMap(ms[..i], MealBlock), MealBlock(ms[i]));
      r := AppendMeal(r, ms[i]);
      i := i + 1;
    }
    assert ms[..i] == ms;
  }

  /** `format_meal_plan`, with its loop over the meals. */
  method FormatMealPlan(plan: seq<(string, Value)>) returns (r: Result<string, PyError>)
    ensures r == MealPlanText(plan)
  {
    if |plan| == 0 {
      return Ok(MealApology);
    }
    var formatted := MealHeader;
    var mealsEntry := DictGet(plan, "meals");
    if mealsEntry.Some? {
      var meals := mealsEntry.value;
      if !meals.VDict? {
        return Err(AttributeError);
      }
      formatted := AppendMeals(formatted, meals.entries);
    }
    var meals := formatted;
    var nutritionEntry := DictGet(plan, "nutrition");
    if nutritionEntry.Some? {
      formatted := formatted + NutritionHeader;
      formatted := AppendInfo(formatted, nutritionEntry.value);
      Assoc(meals, NutritionHeader, InfoLines(nutritionEntry.value));
    }
    assert formatted == meals + NutritionSection(plan);
    return Ok(formatted);
  }

  // ---------------------------------------------------------------- workout plan

  /** `f"• **{name}**: {sets} sets × {reps} reps\n"` for a dict, `f"• {exercise}\n"` otherwise. */
  function ExerciseLine(exercise: Value): string {
    if exercise.VDict? then
      var name := Str(GetOr(exercise.entries, "name", VStr("Unknown Exercise")));
      var sets := Str(GetOr(exercise.entries, "sets", VStr("N/A")));
      var reps := Str(GetOr(exercise.entries, "reps", VStr("N/A")));
      Bullet("**" + name + "**: " + sets + " sets \U{00D7} " + reps + " reps")
    else Bullet(Str(exercise))
  }

  function ExercisesBody(exercises: Value): string {
    if exercises.VList? then ConcatMap(exercises.items, ExerciseLine) else Bullet(Str(exercises))
  }

  function ExercisesSection(plan: seq<(string, Value)>): string {
    match DictGet(plan, "exercises")
    case None => ""
    case Some(x) => ExercisesHeader + ExercisesBody(x) + "\n"
  }

  /** `caption + str(plan[key]) + suffix` when the key is present, else nothing. */
  function LabelLine(plan: seq<(string, Value)>, key: string, caption: string, suffix: string): string {
    match DictGet(plan, key)
    case None => ""
    case Some(v) => caption + Str(v) + suffix
  }

  /** `format_workout_plan`. */
  function WorkoutPlanText(plan: seq<(string, Value)>): (r: string)
    ensures |plan| == 0 ==> r == WorkoutApology
    ensures |plan| > 0 ==> StartsWith(r, WorkoutHeader)
  {
    if |plan| == 0 then WorkoutApology else WorkoutHeader + ExercisesSection(plan) + PlanDetails(plan)
  }

  /** The duration, frequency and notes lines, each only when its key is present. */
  function PlanDetails(plan: seq<(string, Value)>): string {
    LabelLine(plan, "duration", DurationLabel, "\n") + LabelLine(plan, "frequency", FrequencyLabel, "\n")
    + LabelLine(plan, "notes", NotesLabel, "\n")
  }

  /** Every exercise of an exercise list has its line in the plan. */
  lemma ExercisesShown(plan: seq<(string, Value)>, i: nat)
    requires DictHas(plan, "exercises") && DictGet(plan, "exercises").value.VList?
    requires i < |DictGet(plan, "exercises").value.items|
    ensures Contains(WorkoutPlanText(plan), ExerciseLine(DictGet(plan, "exercises").value.items[i]))
  {
    var xs := DictGet(plan, "exercises").value.items;
    var body := ConcatMap(xs, ExerciseLine);
    ConcatMapShows(xs, ExerciseLine, i);
    ContainsInfix(ExercisesHeader, body, "\n", ExerciseLine(xs[i]));
    ContainsInfix(WorkoutHeader, ExercisesSection(plan), PlanDetails(plan), ExerciseLine(xs[i]));
  }

  /** The exercises part: its heading, one line per exercise of a list, and a blank line. */
  method AppendExercises(prefix: string, exercises: Value) returns (r: string)
    ensures r == prefix + ExercisesHeader + ExercisesBody(exercises) + "\n"
  {
    r := prefix + ExercisesHeader;
    if exercises.VList? {
      r := AppendMapped(r, exercises.items, ExerciseLine);
    } else {
      r := r + Bullet(Str(exercises));
    }
    r := r + "\n";
  }

  /** `format_workout_plan`, with its loop over the exercises. */
  method FormatWorkoutPlan(plan: seq<(string, Value)>) returns (r: string)
    ensures r == WorkoutPlanText(plan)
  {
    if |plan| == 0 {
      return WorkoutApology;
    }
    r := WorkoutHeader;
    var exercisesEntry := DictGet(plan, "exercises");
    if exercisesEntry.Some? {
      r := AppendExercises(r, exercisesEntry.value);
      ExercisesAssoc(exercisesEntry.value);
    }
    var sections := r;
    r := r + LabelLine(plan, "duration", DurationLabel, "\n");
    r := r + LabelLine(plan, "frequency", FrequencyLabel, "\n");
    r := r + LabelLine(plan, "notes", NotesLabel, "\n");
    Assoc3(sections, LabelLine(plan, "duration", DurationLabel, "\n"),
      LabelLine(plan, "frequency", FrequencyLabel, "\n"), LabelLine(plan, "notes", NotesLabel, "\n"));
  }

  lemma ExercisesAssoc(exercises: Value)
    ensures WorkoutHeader + ExercisesHeader + ExercisesBody(exercises) + "\n"
      == WorkoutHeader + (ExercisesHeader + ExercisesBody(exercises) + "\n")
  {
    Assoc3(WorkoutHeader, ExercisesHeader, ExercisesBody(exercises), "\n");
  }

  // ---------------------------------------------------------------- goal analysis

  /** `f"{i}. {step}\n"`. */
  function StepLine(i: nat, step: Value): string {
    NatToString(i) + ". " + Str(step) + "\n"
  }

  /** The steps numbered from 1, as `enumerate(steps, 1)` does. */
  function NumberedSteps(steps: seq<Value>): string
    decreases |steps|
  {
    if |steps| == 0 then "" else NumberedSteps(steps[..|steps| - 1]) + StepLine(|steps|, steps[|steps| - 1])
  }

  /**
   * The rendering of the first `k` steps is a prefix of the rendering of all
   * of them, and step `k` (from 0) follows it numbered `k + 1`.
   */
  lemma {:induction false} StepsNumbered(steps: seq<Value>, k: nat)
    requires k < |steps|
    ensures NumberedSteps(steps[..k + 1]) == NumberedSteps(steps[..k]) + StepLine(k + 1, steps[k])
    ensures StartsWith(NumberedSteps(steps), NumberedSteps(steps[..k + 1]))
    decreases |steps| - k
  {
    assert steps[..k + 1][..k] == steps[..k];
    var a := NumberedSteps(steps[..k + 1]);
    if k + 1 < |steps| {
      StepsNumbered(steps, k + 1);
      PrefixStarts(a, StepLine(k + 2, steps[k + 1]));
      StartsWithTrans(NumberedSteps(steps), NumberedSteps(steps[..k + 2]), a);
    } else {
      assert steps[..k + 1] == steps;
      PrefixStarts(a, "");
      assert a + "" == a;
    }
  }

  /** A non-empty step list starts with step 1. */
  lemma StepsFromOne(steps: seq<Value>)
    requires |steps| > 0
    ensures StartsWith(NumberedSteps(steps), StepLine(1, steps[0]))
  {
    StepsNumbered(steps, 0);
    assert NumberedSteps(steps[..0]) == "";
  }

  function StepsSection(goalData: seq<(string, Value)>): string {
    match DictGet(goalData, "steps")
    case None => ""
    case Some(s) => StepsHeader + (if s.VList? then NumberedSteps(s.items) else Bullet(Str(s)))
  }

  /** `format_goal_analysis`. */
  function GoalAnalysisText(goalData: seq<(string, Value)>): (r: string)
    ensures |goalData| == 0 ==> r == GoalApology
    ensures |goalData| > 0 ==> StartsWith(r, GoalHeader)
  {
    if |goalData| == 0 then GoalApology
    else
      GoalHeader + LabelLine(goalData, "goal", "**Your Goal:** ", "\n\n")
      + LabelLine(goalData, "type", "**Goal Type:** ", "\n\n")
      + LabelLine(goalData, "timeline", "**Timeline:** ", "\n\n") + StepsSection(goalData)
  }

  /** Appends the numbered steps, counting from 1. */
  method AppendSteps(prefix: string, steps: seq<Value>) returns (r: string)
    ensures r == prefix + NumberedSteps(steps)
  {
    r := prefix;
    var i := 0;
    while i < |steps|
      invariant 0 <= i <= |steps|
      invariant r == prefix + NumberedSteps(steps[..i])
    {
      StepsNumbered(steps, i);
      Assoc(prefix, NumberedSteps(steps[..i]), StepLine(i + 1, steps[i]));
      r := r + StepLine(i + 1, steps[i]);
      i := i + 1;
    }
    assert steps[..i] == steps;
  }

  /** `format_goal_analysis`, with its loop over the steps. */
  method FormatGoalAnalysis(goalData: seq<(string, Value)>) returns (r: string)
    ensures r == GoalAnalysisText(goalData)
  {
    if |goalData| == 0 {
      return GoalApology;
    }
    r := GoalHeader;
    r := r + LabelLine(goalData, "goal", "**Your Goal:** ", "\n\n");
    r := r + LabelLine(goalData, "type", "**Goal Type:** ", "\n\n");
    r := r + LabelLine(goalData, "timeline", "**Timeline:** ", "\n\n");
    var before := r;
    var stepsEntry := DictGet(goalData, "steps");
    if stepsEntry.Some? {
      r := r + StepsHeader;
      var steps := stepsEntry.value;
      if steps.VList? {
        r := AppendSteps(r, steps.items);
        Assoc(before, StepsHeader, NumberedSteps(steps.items));
      } else {
        r := r + Bullet(Str(steps));
        Assoc(before, StepsHeader, Bullet(Str(steps)));
      }
    } else {
      assert before + "" == before;
    }
    assert r == before + StepsSection(goalData);
  }
}
