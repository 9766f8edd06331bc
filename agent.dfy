/**
 * `HealthWellnessAgent.handle_message` (agent.py): keyword dispatch over the
 * lowercased message, followed by updates to the session context.
 *
 * The specialist agents, the meal planner and the workout recommender are
 * abstract: their replies are parameters. The injury agent's check of the
 * description (agents/injury_support_agent.py) is modelled, with the check
 * from module Guardrails. The goal analyser is the model in module
 * GoalAnalyzer.
 */
module Agent {
  import opened Wrappers
  import opened PyStrings
  import opened PyValue
  import GoalAnalyzer
  import Guardrails
  import SessionContext

  const GoalRecordedMessage: string := "I've recorded your goal. Would you like me to create a meal and workout plan?"
  const NeedGoalMessage: string := "Please tell me your health goal first."
  const MealPlanMessage: string := "Here's your personalized meal plan:"
  const WorkoutPlanMessage: string := "Here's your personalized workout plan:"
  const InjuryDetailsMessage: string := "Please provide injury location, pain level, and duration"
  const DefaultMessage: string := "I'm here to help with your health and wellness journey. What would you like to know?"

  /** The branch `handle_message` takes. */
  datatype Route = ToNutritionExpert | ToInjurySupport | RecordGoal | MealPlanRequest | WorkoutRequest | DefaultReply

  /** The tests in source order: the first keyword family found in the lowercased message decides. */
  function RouteOf(message: string): Route {
    var m := Lower(message);
    if Contains(m, "diabetic") || Contains(m, "allergy") then ToNutritionExpert
    else if Contains(m, "injury") || Contains(m, "pain") then ToInjurySupport
    else if Contains(m, "goal") then RecordGoal
    else if Contains(m, "meal plan") then MealPlanRequest
    else if Contains(m, "workout") then WorkoutRequest
    else DefaultReply
  }

  /** `{"message": text}`. */
  function Reply(text: string): Value {
    VDict([("message", VStr(text))])
  }

  /** `{"message": text, "plan": plan}`. */
  function ReplyWithPlan(text: string, plan: Value): Value {
    VDict([("message", VStr(text)), ("plan", plan)])
  }

  /**
   * The goal branch is only taken for messages containing "goal", and the
   * goal analyser rejects every such message: recording a goal through
   * `handle_message` always raises `ValueError`.
   */
  lemma GoalRouteRejected(message: string)
    requires RouteOf(message) == RecordGoal
    ensures GoalAnalyzer.Run(message) == Err(ValueError(GoalAnalyzer.InvalidGoalFormat))
  {
    Guardrails.GoalWordRejected(message);
  }

  /**
   * "my knee pain" goes to the injury agent, which rejects it for lacking
   * the location, pain level and duration.
   */
  lemma KneePainNeedsDetails()
    ensures RouteOf("my knee pain") == ToInjurySupport
    ensures !Guardrails.ValidateInjuryInput("my knee pain")
  {
    var m := "my knee pain";
    assert Lower(m) == m;
    KneePainRoute();
    Guardrails.KneePainRejected();
  }

  lemma KneePainRoute()
    ensures var m := "my knee pain";
      !Contains(m, "diabetic") && !Contains(m, "allergy") && !Contains(m, "injury") && Contains(m, "pain")
  {
    KneePainNoDiabetic();
    KneePainNoAllergy();
    KneePainNoInjury();
    KneePainHasPain();
  }

  lemma KneePainNoDiabetic() ensures !Contains("my knee pain", "diabetic") { MissingChar("my knee pain", "diabetic", 0); }
  lemma KneePainNoAllergy() ensures !Contains("my knee pain", "allergy") { MissingChar("my knee pain", "allergy", 1); }
  lemma KneePainNoInjury() ensures !Contains("my knee pain", "injury") { MissingChar("my knee pain", "injury", 2); }
  lemma KneePainHasPain() ensures Contains("my knee pain", "pain")
  {
    assert OccursAt("my knee pain", "pain", 8);
    ContainsAt("my knee pain", "pain");
  }

  class HealthWellnessAgent {
    var context: SessionContext.UserSessionContext?

    /** A new agent has no session yet. */
    constructor ()
      ensures context == null
    {
      context := null;
    }

    /** `initialize_session`: a fresh session context. */
    method InitializeSession(userName: string, userId: int)
      modifies this
      ensures context != null && fresh(context)
      ensures context.State() == SessionContext.NewSession(userName, userId)
    {
      context := new SessionContext.UserSessionContext(userName, userId);
    }

    /**
     * `handle_message`. `nutritionReply` is what the nutrition agent returns
     * and `injuryReply` what the injury agent returns for a description it
     * accepts; the injury agent raises `ValueError` for one that lacks the
     * required details. `mealPlan` and `workoutPlan` are what the planner
     * tools return. Without a session, the branches that read the context
     * raise `AttributeError`.
     */
    method HandleMessage(message: string, nutritionReply: Value, injuryReply: Value, mealPlan: Value, workoutPlan: Value)
      returns (r: Result<Value, PyError>)
      modifies context
      ensures RouteOf(message) == ToNutritionExpert ==> r == Ok(nutritionReply)
      ensures RouteOf(message) == ToInjurySupport ==>
        r == if Guardrails.ValidateInjuryInput(message) then Ok(injuryReply) else Err(ValueError(InjuryDetailsMessage))
      ensures RouteOf(message) == RecordGoal ==>
        match GoalAnalyzer.Run(message)
        case Err(e) => r == Err(e)
        case Ok(g) =>
          (context == null ==> r == Err(AttributeError))
          && (context != null ==> r == Ok(Reply(GoalRecordedMessage)) && context.State() == old(context.State()).(goal := g))
      ensures (RouteOf(message) == MealPlanRequest || RouteOf(message) == WorkoutRequest) ==>
        (context == null ==> r == Err(AttributeError))
        && (context != null && !Truthy(old(context.goal)) ==> r == Ok(Reply(NeedGoalMessage)))
      ensures RouteOf(message) == MealPlanRequest && context != null && Truthy(old(context.goal)) ==>
        match Subscript(mealPlan, "meals")
        case Err(e) => r == Err(e)
        case Ok(meals) =>
          r == Ok(ReplyWithPlan(MealPlanMessage, mealPlan))
          && context.State() == old(context.State()).(mealPlan := meals)
      ensures RouteOf(message) == WorkoutRequest && context != null && Truthy(old(context.goal)) ==>
        r == Ok(ReplyWithPlan(WorkoutPlanMessage, workoutPlan))
        && context.State() == old(context.State()).(workoutPlan := workoutPlan)
      ensures RouteOf(message) == DefaultReply ==> r == Ok(Reply(DefaultMessage))
      ensures context != null && r.Err? ==> context.State() == old(context.State())
      ensures context != null && RouteOf(message) in {ToNutritionExpert, ToInjurySupport, DefaultReply} ==>
        context.State() == old(context.State())
      ensures context != null && !Truthy(old(context.goal)) && RouteOf(message) != RecordGoal ==>
        context.State() == old(context.State())
    {
      var route := RouteOf(message);
      if route == ToNutritionExpert {
        return Ok(nutritionReply);
      } else if route == ToInjurySupport {
        if !Guardrails.ValidateInjuryInput(message) {
          return Err(ValueError(InjuryDetailsMessage));
        }
        return Ok(injuryReply);
      }
      if route == RecordGoal {
        var goalData := GoalAnalyzer.Run(message);
        if goalData.Err? {
          return Err(goalData.error);
        }
        if context == null {
          return Err(AttributeError);
        }
        context.UpdateGoal(goalData.value);
        return Ok(Reply(GoalRecordedMessage));
      } else if route == MealPlanRequest {
        if context == null {
          return Err(AttributeError);
        }
        if !Truthy(context.goal) {
          return Ok(Reply(NeedGoalMessage));
        }
        var meals := Subscript(mealPlan, "meals");
        if meals.Err? {
          return Err(meals.error);
        }
        context.UpdateMealPlan(meals.value);
        return Ok(ReplyWithPlan(MealPlanMessage, mealPlan));
      } else if route == WorkoutRequest {
        if context == null {
          return Err(AttributeError);
        }
        if !Truthy(context.goal) {
          return Ok(Reply(NeedGoalMessage));
        }
        context.UpdateWorkoutPlan(workoutPlan);
        return Ok(ReplyWithPlan(WorkoutPlanMessage, workoutPlan));
      }
      return Ok(Reply(DefaultMessage));
    }
  }

  /**
   * No message ever changes the stored goal: the only branch that writes it
   * is the goal branch, and that one always raises. So a session that starts
   * without a goal answers every meal-plan and workout request with
   * "Please tell me your health goal first.".
   */
  method GoalNeverRecorded(agent: HealthWellnessAgent, message: string, nutritionReply: Value, injuryReply: Value, mealPlan: Value, workoutPlan: Value)
    returns (r: Result<Value, PyError>)
    requires agent.context != null
    modifies agent.context
    ensures agent.context.goal == old(agent.context.goal)
    ensures !Truthy(old(agent.context.goal)) && RouteOf(message) in {MealPlanRequest, WorkoutRequest} ==>
      r == Ok(Reply(NeedGoalMessage))
  {
    if RouteOf(message) == RecordGoal {
      GoalRouteRejected(message);
    }
    r := agent.HandleMessage(message, nutritionReply, injuryReply, mealPlan, workoutPlan);
  }
}
