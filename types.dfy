/** The goal record of types.ts; the deadline Timestamp is kept as milliseconds since the epoch. */
module Types {
  import opened Wrappers

  datatype GoalStatus = Active | Completed

  datatype Goal = Goal(id: string, userId: string, goal: string, deadline: int, lockImage: Option<string>, status: GoalStatus)
}
