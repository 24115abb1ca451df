/**
 * The request the dashboard sends for a next action, checked against the server's input
 * schema. The dashboard builds the body from its goal list (plain strings) and the picker's
 * constraints (energy as a 0-100 percentage, time in minutes, free-text context).
 */
module WebClient {
  import opened Wrappers
  import opened Schemas
  import opened ConstraintPicker

  /** The posted body `{ goals, energy, availableMinutes, context }`, as the server parses it. */
  function RequestBody(goals: seq<string>, c: Constraints): Json
  {
    JObject(map[
      "goals" := JArray(seq(|goals|, i requires 0 <= i < |goals| => JString(goals[i]))),
      "energy" := JNumber(c.energy as real),
      "availableMinutes" := JNumber(c.time as real),
      "context" := JString(c.context)])
  }

  /** generateAction: nothing is sent while the goal list is empty; otherwise the body above. */
  function DashboardRequest(goals: seq<string>, c: Constraints): (req: Option<Json>)
    ensures req.Some? <==> |goals| > 0
    ensures req.Some? ==> req.value == RequestBody(goals, c)
  {
    if |goals| == 0 then None else Some(RequestBody(goals, c))
  }

  /** The server accepts the body exactly when there are no goals (the schema wants goal
      objects, not strings), energy is 1 to 5, time is 5 to 1440 and the context is one of the
      three enum names. */
  lemma RequestBodyAcceptedIff(goals: seq<string>, c: Constraints)
    ensures NextActionInputValid(RequestBody(goals, c)) <==>
      && goals == []
      && 1 <= c.energy <= 5
      && 5 <= c.time <= 1440
      && c.context in CONTEXT_NAMES
  {
    var o := RequestBody(goals, c).fields;
    if goals != [] {
      assert !GoalOk(o["goals"].items[0]);
    }
  }

  /** Every request the dashboard actually sends is rejected by the input schema, whatever the
      constraints, so no action can be generated from the dashboard. */
  lemma EveryDashboardRequestRejected(goals: seq<string>, c: Constraints)
    ensures DashboardRequest(goals, c).Some? ==> !NextActionInputValid(DashboardRequest(goals, c).value)
    ensures DashboardRequest(goals, c).Some? ==> ParseNextActionInput(DashboardRequest(goals, c).value) == None
  {
    RequestBodyAcceptedIff(goals, c);
  }

  /** The starting constraints fail two checks on their own: energy 70 is above 5 and
      "At desk" is not a context name. */
  lemma InitialConstraintsRejected(goals: seq<string>)
    ensures !EnergyOk(RequestBody(goals, Constraints(70, 30, "At desk")).fields)
    ensures !ContextOk(RequestBody(goals, Constraints(70, 30, "At desk")).fields)
    ensures AvailableMinutesOk(RequestBody(goals, Constraints(70, 30, "At desk")).fields)
  {
    assert "At desk" != "HOME" && "At desk" != "WORK" && "At desk" != "OUTSIDE";
  }

  /** Of the energy slider's positions only 5 lies in the schema's range. */
  lemma SliderEnergyAcceptedOnlyAtFive(v: int)
    requires v in EnergyPositions()
    ensures 1 <= v <= 5 <==> v == 5
  {
    EnergyPositionsAre(v);
  }

  /** Every position of the time slider lies in the schema's range. */
  lemma SliderTimeAlwaysAccepted(v: int)
    requires v in TimePositions()
    ensures 5 <= v <= 1440
  {
    TimePositionsAre(v);
  }
}
