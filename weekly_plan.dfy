/**
 * One week of the plan: its index, the workouts appended to it in insertion
 * order, and the two flags the passes set.
 */
module WeeklyPlans {
  import opened Workouts

  /** The value of a weekly plan at one moment. */
  datatype Week = Week(
    weekIndex: int,
    workouts: seq<Workout>,
    isRecoveryWeek: bool,
    isWithBLevelRace: bool)

  /** A week as the plan allocates it: no workouts, neither flag set. */
  function EmptyWeek(weekIndex: int): Week
  {
    Week(weekIndex, [], false, false)
  }

  /** The value of `w` after appending `workout`: order kept, flags unchanged. */
  function WithWorkout(w: Week, workout: Workout): Week
  {
    w.(workouts := w.workouts + [workout])
  }

  /** A weekly plan object, updated in place by the passes of the plan. */
  class WeeklyPlan {
    const weekIndex: int
    var workouts: seq<Workout>
    var isRecoveryWeek: bool
    var isWithBLevelRace: bool

    /** The current value of this weekly plan. */
    ghost function Value(): Week
      reads this
    {
      Week(weekIndex, workouts, isRecoveryWeek, isWithBLevelRace)
    }

    constructor (weekIndex: nat)
      ensures Value() == EmptyWeek(weekIndex)
    {
      this.weekIndex := weekIndex;
      workouts := [];
      isRecoveryWeek := false;
      isWithBLevelRace := false;
    }

    /** Appends a workout, keeping insertion order. */
    method AddWorkout(workout: Workout)
      modifies this
      ensures Value() == WithWorkout(old(Value()), workout)
    {
      workouts := workouts + [workout];
    }
  }
}
