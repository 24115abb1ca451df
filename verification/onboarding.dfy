/**
 * The onboarding wizard: three screens (goals, current constraints, a final confirmation)
 * walked with Next and Back; Next on the last screen stores the goals and constraints for
 * the dashboard and moves to the home route.
 */
module Onboarding {
  import opened Wrappers
  import opened ConstraintPicker

  const TOTAL_STEPS: int := 3
  const FIRST_STEP: int := 1
  const INITIAL_CONSTRAINTS: Constraints := Constraints(70, 30, "At desk")
  const HOME_ROUTE: string := "/"

  /** The two local-storage entries (`user_goals`, `user_constraints`) left for the dashboard. */
  datatype Saved = Saved(goals: seq<string>, constraints: Constraints)

  /** A press of one of the footer buttons. */
  datatype Nav = Next | Back

  /** The step after Next: one further, except on the last step, which Next does not leave. */
  function NextStep(step: int): (r: int)
    ensures step < TOTAL_STEPS ==> r == step + 1
    ensures step >= TOTAL_STEPS ==> r == step
  {
    if step < TOTAL_STEPS then step + 1 else step
  }

  /** The step after Back: one back, except on the first step. */
  function BackStep(step: int): (r: int)
    ensures step > FIRST_STEP ==> r == step - 1
    ensures step <= FIRST_STEP ==> r == step
  {
    if step > FIRST_STEP then step - 1 else step
  }

  /** The step reached from `step` after the presses `navs`, in order. */
  function StepAfter(step: int, navs: seq<Nav>): int
    decreases |navs|
  {
    if navs == [] then step
    else StepAfter(if navs[0] == Next then NextStep(step) else BackStep(step), navs[1..])
  }

  /** The number of Next presses among `navs`. */
  function NextCount(navs: seq<Nav>): (n: nat)
    ensures n <= |navs|
  {
    if navs == [] then 0 else (if navs[0] == Next then 1 else 0) + NextCount(navs[1..])
  }

  /** However the buttons are pressed, the step stays between 1 and 3. */
  lemma {:induction false} StepStaysInRange(step: int, navs: seq<Nav>)
    requires FIRST_STEP <= step <= TOTAL_STEPS
    ensures FIRST_STEP <= StepAfter(step, navs) <= TOTAL_STEPS
    decreases |navs|
  {
    if navs != [] {
      StepStaysInRange(if navs[0] == Next then NextStep(step) else BackStep(step), navs[1..]);
    }
  }

  /** Each Next press advances at most one step, so the last screen is reached from the first
      only after at least two presses of Next. */
  lemma {:induction false} StepBoundedByNextPresses(step: int, navs: seq<Nav>)
    ensures StepAfter(step, navs) <= step + NextCount(navs)
    decreases |navs|
  {
    if navs != [] {
      StepBoundedByNextPresses(if navs[0] == Next then NextStep(step) else BackStep(step), navs[1..]);
    }
  }

  /** The wizard's state. `saved` and `location` stand for the local-storage writes and the
      navigation that finish it. */
  class Wizard {
    var step: int
    var goals: seq<string>
    var constraints: Constraints
    var saved: Option<Saved>
    var location: Option<string>

    ghost predicate Valid()
      reads this
    {
      FIRST_STEP <= step <= TOTAL_STEPS
    }

    constructor ()
      ensures Valid() && step == FIRST_STEP
      ensures goals == [] && constraints == INITIAL_CONSTRAINTS
      ensures saved == None && location == None
    {
      step := FIRST_STEP;
      goals := [];
      constraints := INITIAL_CONSTRAINTS;
      saved := None;
      location := None;
    }

    /** The goal editor's `onChange`; the editor is on screen only on the first step. */
    method SetGoals(newGoals: seq<string>)
      requires step == FIRST_STEP
      modifies this
      ensures goals == newGoals
      ensures step == old(step) && constraints == old(constraints)
      ensures saved == old(saved) && location == old(location)
    {
      goals := newGoals;
    }

    /** The constraint picker's `onChange`; the picker is on screen only on the second step. */
    method SetConstraints(c: Constraints)
      requires step == FIRST_STEP + 1
      modifies this
      ensures constraints == c
      ensures step == old(step) && goals == old(goals)
      ensures saved == old(saved) && location == old(location)
    {
      constraints := c;
    }

    /** handleNext: forward one step, or on the last step store the goals and constraints and
        go to the home route. */
    method HandleNext()
      modifies this
      ensures step == NextStep(old(step))
      ensures old(Valid()) ==> Valid()
      ensures goals == old(goals) && constraints == old(constraints)
      ensures old(step) < TOTAL_STEPS ==> saved == old(saved) && location == old(location)
      ensures old(step) >= TOTAL_STEPS ==>
        saved == Some(Saved(goals, constraints)) && location == Some(HOME_ROUTE)
    {
      if step < TOTAL_STEPS {
        step := step + 1;
      } else {
        saved := Some(Saved(goals, constraints));
        location := Some(HOME_ROUTE);
      }
    }

    /** handleBack: back one step, nothing on the first step. */
    method HandleBack()
      modifies this
      ensures step == BackStep(old(step))
      ensures old(Valid()) ==> Valid()
      ensures goals == old(goals) && constraints == old(constraints)
      ensures saved == old(saved) && location == old(location)
    {
      if step > FIRST_STEP {
        step := step - 1;
      }
    }

    /** The Back button is disabled exactly on the first step. */
    function BackDisabled(): (disabled: bool)
      reads this
      ensures disabled <==> step == FIRST_STEP
    {
      step == FIRST_STEP
    }

    /** The Next button is disabled exactly on the first step while no goal has been added. */
    function NextDisabled(): (disabled: bool)
      reads this
      ensures disabled <==> step == FIRST_STEP && |goals| == 0
    {
      step == FIRST_STEP && |goals| == 0
    }
  }
}
