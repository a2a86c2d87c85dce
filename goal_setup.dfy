/**
 * The goal form of components/GoalSetup.tsx. The deadline field holds the
 * parsed instant in milliseconds, None while the input is empty; "now" is a
 * parameter.
 */
module GoalSetupComponent {
  import opened Wrappers
  import opened Text

  const FillBothError := "Please fill out both your goal and the deadline."
  const PastDeadlineError := "The deadline must be in the future."

  /** The outcome of the form check: the arguments of `onGoalSet`, or the error shown. */
  datatype Check = Accepted(goal: string, deadline: int) | Rejected(error: string)

  /** The validation of `handleSubmit`. */
  function CheckGoal(goal: string, deadline: Option<int>, now: int): (r: Check)
    ensures r.Accepted? <==> !AllWhitespace(goal) && deadline.Some? && deadline.value > now
    ensures r.Accepted? ==> r.goal == goal && r.deadline == deadline.value
    ensures AllWhitespace(goal) || deadline.None? ==> r == Rejected(FillBothError)
    ensures !AllWhitespace(goal) && deadline.Some? && deadline.value <= now ==> r == Rejected(PastDeadlineError)
  {
    TrimEmptyIff(goal);
    if Trim(goal) == "" || deadline.None? then Rejected(FillBothError)
    else if deadline.value <= now then Rejected(PastDeadlineError)
    else Accepted(goal, deadline.value)
  }

  /** A deadline equal to now is refused; one a second later is accepted. */
  lemma DeadlineBoundary(goal: string, now: int)
    requires !AllWhitespace(goal)
    ensures CheckGoal(goal, Some(now), now) == Rejected(PastDeadlineError)
    ensures CheckGoal(goal, Some(now + 1000), now) == Accepted(goal, now + 1000)
  {
  }

  /** The GoalSetup component: the two inputs and the error line. */
  class GoalSetup {
    var goal: string
    var deadline: Option<int>
    var error: string

    constructor()
      ensures goal == "" && deadline == None && error == ""
    {
      goal, deadline, error := "", None, "";
    }

    /** `handleSubmit` at instant `now`; `goalSet` holds the arguments of the `onGoalSet` call, if any. */
    method HandleSubmit(now: int) returns (goalSet: Option<(string, int)>)
      modifies this`error
      ensures match CheckGoal(goal, deadline, now)
              case Accepted(g, d) => goalSet == Some((g, d)) && error == ""
              case Rejected(e) => goalSet == None && error == e
    {
      if Trim(goal) == "" || deadline.None? {
        error := FillBothError;
        return None;
      }
      var deadlineDate := deadline.value;
      if deadlineDate <= now {
        error := PastDeadlineError;
        return None;
      }
      error := "";
      goalSet := Some((goal, deadlineDate));
    }
  }
}
