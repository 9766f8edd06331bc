/**
 * `UserSessionContext` (context.py): the per-user session record, with one
 * setter per optional field and two append-only logs.
 */
module SessionContext {
  import opened Wrappers
  import opened PyValue

  /** All fields of the record at one moment. */
  datatype Session = Session(
    name: string,
    uid: int,
    goal: Value,
    dietPreferences: Option<string>,
    workoutPlan: Value,
    mealPlan: Value,
    injuryNotes: Option<string>,
    handoffLogs: seq<string>,
    progressLogs: seq<seq<(string, string)>>)

  /** A fresh session: every optional field unset and both logs empty. */
  function NewSession(name: string, uid: int): (s: Session)
    ensures s.goal == VNone && s.workoutPlan == VNone && s.mealPlan == VNone
    ensures s.dietPreferences == None && s.injuryNotes == None
    ensures s.handoffLogs == [] && s.progressLogs == []
    ensures s.name == name && s.uid == uid
  {
    Session(name, uid, VNone, None, VNone, VNone, None, [], [])
  }

  class UserSessionContext {
    var name: string
    var uid: int
    var goal: Value
    var dietPreferences: Option<string>
    var workoutPlan: Value
    var mealPlan: Value
    var injuryNotes: Option<string>
    var handoffLogs: seq<string>
    var progressLogs: seq<seq<(string, string)>>

    function State(): Session
      reads this
    {
      Session(name, uid, goal, dietPreferences, workoutPlan, mealPlan, injuryNotes, handoffLogs, progressLogs)
    }

    constructor (name: string, uid: int)
      ensures State() == NewSession(name, uid)
    {
      this.name := name;
      this.uid := uid;
      goal := VNone;
      dietPreferences := None;
      workoutPlan := VNone;
      mealPlan := VNone;
      injuryNotes := None;
      handoffLogs := [];
      progressLogs := [];
    }

    /** `update_goal`: sets the goal and nothing else. */
    method UpdateGoal(goal: Value)
      modifies this
      ensures State() == old(State()).(goal := goal)
    {
      this.goal := goal;
    }

    /** `update_diet_preferences`: sets the preferences and nothing else. */
    method UpdateDietPreferences(preferences: string)
      modifies this
      ensures State() == old(State()).(dietPreferences := Some(preferences))
    {
      dietPreferences := Some(preferences);
    }

    /** `update_workout_plan`: sets the workout plan and nothing else. */
    method UpdateWorkoutPlan(plan: Value)
      modifies this
      ensures State() == old(State()).(workoutPlan := plan)
    {
      workoutPlan := plan;
    }

    /** `update_meal_plan`: sets the meal plan and nothing else. */
    method UpdateMealPlan(plan: Value)
      modifies this
      ensures State() == old(State()).(mealPlan := plan)
    {
      mealPlan := plan;
    }

    /** `add_injury_note`: replaces any earlier note rather than adding to it. */
    method AddInjuryNote(note: string)
      modifies this
      ensures State() == old(State()).(injuryNotes := Some(note))
    {
      injuryNotes := Some(note);
    }

    /** `log_handoff`: appends one message at the end of the handoff log. */
    method LogHandoff(message: string)
      modifies this
      ensures State() == old(State()).(handoffLogs := old(handoffLogs) + [message])
    {
      handoffLogs := handoffLogs + [message];
    }

    /** `log_progress`: appends one entry at the end of the progress log. */
    method LogProgress(progress: seq<(string, string)>)
      modifies this
      ensures State() == old(State()).(progressLogs := old(progressLogs) + [progress])
    {
      progressLogs := progressLogs + [progress];
    }
  }
}
